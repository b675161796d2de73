/**
 * The chat transcript, `st.session_state.messages` in frontend/app.py, and the loop that
 * assembles a streamed answer from its fragments.
 */
module Transcript {
  import opened Wrappers

  datatype Role = User | Assistant

  /** One `{role, content}` record; `sources` is the optional key the display reads with
      `message.get("sources")`. */
  datatype Message = Message(role: Role, content: string, sources: Option<seq<string>>)

  const Greeting: string :=
    "Hello! I'm your AI document assistant. Upload PDF documents and ask me anything about them! \U{1F680}"
  const ClearedGreeting: string := "Chat cleared! How can I help you with your documents?"

  /** A transcript as the page keeps it: it starts with an assistant turn and no message
      carries sources. */
  predicate WellFormed(messages: seq<Message>) {
    && messages != []
    && messages[0].role == Assistant
    && forall i :: 0 <= i < |messages| ==> messages[i].sources.None?
  }

  /** The fragments joined in order, with nothing added, dropped or trimmed. */
  function Concat(fragments: seq<string>): string
    decreases |fragments|
  {
    if fragments == [] then ""
    else Concat(fragments[..|fragments| - 1]) + fragments[|fragments| - 1]
  }

  lemma {:induction false} ConcatAppend(a: seq<string>, b: seq<string>)
    ensures Concat(a + b) == Concat(a) + Concat(b)
    decreases |b|
  {
    if b == [] {
      assert a + b == a;
    } else {
      var front := b[..|b| - 1];
      assert (a + b)[..|a + b| - 1] == a + front;
      ConcatAppend(a, front);
    }
  }

  /** Fragment `i` sits in the joined text right after the fragments before it and right
      before the fragments after it. */
  lemma {:induction false} ConcatSplit(fragments: seq<string>, i: nat)
    requires i < |fragments|
    ensures Concat(fragments) == Concat(fragments[..i]) + fragments[i] + Concat(fragments[i + 1..])
  {
    var upTo := fragments[..i + 1];
    assert fragments == upTo + fragments[i + 1..];
    ConcatAppend(upTo, fragments[i + 1..]);
    assert upTo[..|upTo| - 1] == fragments[..i];
    assert Concat(upTo) == Concat(fragments[..i]) + fragments[i];
  }

  /** The joined text of a prefix of the fragments is a prefix of the joined text. */
  lemma {:induction false} ConcatPrefix(fragments: seq<string>, i: nat)
    requires i <= |fragments|
    ensures Concat(fragments[..i]) <= Concat(fragments)
  {
    assert fragments == fragments[..i] + fragments[i..];
    ConcatAppend(fragments[..i], fragments[i..]);
  }

  /** The streaming loop of `main()`: `full_response += chunk` for every fragment, rendering
      the growing answer after each one. Returns the final answer and the successive renders. */
  method StreamInto(fragments: seq<string>) returns (fullResponse: string, renders: seq<string>)
    ensures fullResponse == Concat(fragments)
    ensures |renders| == |fragments|
    ensures forall i :: 0 <= i < |renders| ==> renders[i] == Concat(fragments[..i + 1])
    ensures forall i :: 0 < i < |renders| ==> renders[i - 1] <= renders[i]
    ensures forall i :: 0 <= i < |renders| ==> renders[i] <= fullResponse
  {
    fullResponse := "";
    renders := [];
    var i := 0;
    while i < |fragments|
      invariant 0 <= i <= |fragments|
      invariant fullResponse == Concat(fragments[..i])
      invariant |renders| == i
      invariant forall k :: 0 <= k < i ==> renders[k] == Concat(fragments[..k + 1])
      invariant forall k :: 0 < k < i ==> renders[k - 1] <= renders[k]
      invariant forall k :: 0 <= k < i ==> renders[k] <= fullResponse
    {
      assert fragments[..i + 1][..i] == fragments[..i];
      fullResponse := fullResponse + fragments[i];
      renders := renders + [fullResponse];
      i := i + 1;
    }
    assert fragments[..i] == fragments;
  }
}
