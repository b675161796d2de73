/**
 * The session bookkeeping of `main()` in frontend/app.py. `st.session_state` survives the
 * page's reruns; each of its keys is a field here, `None` while the key is absent.
 */
module Session {
  import opened Wrappers
  import opened Gateway
  import opened Registry
  import opened Transcript

  /** The assistant turn a question produces, by stream outcome: the body joined in order on a
      clean 200; the body so far followed by the fallback when the body was cut off; the
      fallback alone when no 200 response arrived. */
  lemma {:induction false} StreamedAnswer(o: StreamOutcome)
    ensures StreamedCleanly(o) ==> Concat(StreamAskQuestion(o)) == Concat(o.body)
    ensures o.Opened? && o.status == 200 && !StreamedCleanly(o) ==>
      Concat(StreamAskQuestion(o)) == Concat(o.body) + FallbackFor(o)
    ensures !(o.Opened? && o.status == 200) ==> Concat(StreamAskQuestion(o)) == FallbackFor(o)
  {
  }

  class SessionState {
    var processedFiles: Option<map<string, Entry>>
    var chatHistory: Option<seq<Message>>
    var messages: Option<seq<Message>>

    /** Whatever keys are present hold a well-formed value. */
    ghost predicate Consistent()
      reads this
    {
      messages.Some? ==> WellFormed(messages.value)
    }

    /** Every key has been initialised and the transcript is well-formed. */
    ghost predicate Valid()
      reads this
    {
      && processedFiles.Some? && chatHistory.Some? && messages.Some?
      && Consistent()
    }

    /** A new browser session: no key is present yet. */
    constructor ()
      ensures Consistent()
      ensures processedFiles == None && chatHistory == None && messages == None
    {
      processedFiles, chatHistory, messages := None, None, None;
    }

    /** The "Initialize session state" block at the top of every run: each key is created
        only when absent, the transcript with the greeting. */
    method Initialize()
      requires Consistent()
      modifies this
      ensures Valid()
      ensures old(processedFiles).Some? ==> processedFiles == old(processedFiles)
      ensures old(processedFiles).None? ==> processedFiles == Some(map[])
      ensures old(chatHistory).Some? ==> chatHistory == old(chatHistory)
      ensures old(chatHistory).None? ==> chatHistory == Some([])
      ensures old(messages).Some? ==> messages == old(messages)
      ensures old(messages).None? ==> messages == Some([Message(Assistant, Greeting, None)])
      ensures old(Valid()) ==> unchanged(this)
    {
      if processedFiles.None? {
        processedFiles := Some(map[]);
      }
      if chatHistory.None? {
        chatHistory := Some([]);
      }
      if messages.None? {
        messages := Some([Message(Assistant, Greeting, None)]);
      }
    }

    /** The "Process Documents" loop: uploads the files one by one, records each upload
        that returned a result, and reports the batch's chunk total and recorded names. */
    method ProcessDocuments(uploads: seq<Upload>) returns (totalChunks: int, processed: seq<string>)
      requires Valid()
      modifies this
      ensures Valid()
      ensures processedFiles == Some(ApplyUploads(old(processedFiles.value), uploads))
      ensures totalChunks == BatchChunks(uploads)
      ensures processed == BatchNames(uploads)
      ensures messages == old(messages) && chatHistory == old(chatHistory)
    {
      totalChunks := 0;
      processed := [];
      var i := 0;
      while i < |uploads|
        invariant 0 <= i <= |uploads|
        invariant processedFiles == Some(ApplyUploads(old(processedFiles.value), uploads[..i]))
        invariant totalChunks == BatchChunks(uploads[..i])
        invariant processed == BatchNames(uploads[..i])
        invariant messages == old(messages) && chatHistory == old(chatHistory)
      {
        var file := uploads[i];
        assert uploads[..i + 1][..i] == uploads[..i];
        var result := UploadPdf(file.outcome);
        if result.Some? && UploadTruthy(result.value) {
          var chunks := result.value.chunks.GetOr(0);
          totalChunks := totalChunks + chunks;
          processedFiles := Some(processedFiles.value[file.name := Entry(chunks, ProcessedStatus, file.clock)]);
          processed := processed + [file.name];
        }
        i := i + 1;
      }
      assert uploads[..i] == uploads;
    }

    /** The "Clear Chat" button: the transcript becomes the single cleared greeting. */
    method ClearChat()
      requires Valid()
      modifies this
      ensures Valid()
      ensures messages == Some([Message(Assistant, ClearedGreeting, None)])
      ensures processedFiles == old(processedFiles) && chatHistory == old(chatHistory)
    {
      messages := Some([Message(Assistant, ClearedGreeting, None)]);
    }

    /** The chat input handler: for a non-empty question, appends the user turn, streams the
        answer (`renders` are the successive placeholder contents) and appends the assistant
        turn holding the whole answer. An empty input does nothing. */
    method AskQuestion(userInput: string, outcome: StreamOutcome) returns (renders: seq<string>)
      requires Valid()
      modifies this
      ensures Valid()
      ensures processedFiles == old(processedFiles) && chatHistory == old(chatHistory)
      ensures userInput == [] ==> messages == old(messages) && renders == []
      ensures userInput != [] ==>
        messages.value == old(messages.value) +
          [Message(User, userInput, None), Message(Assistant, Concat(StreamAskQuestion(outcome)), None)]
      ensures userInput != [] ==> |renders| == |StreamAskQuestion(outcome)|
      ensures userInput != [] ==>
        forall i :: 0 <= i < |renders| ==> renders[i] == Concat(StreamAskQuestion(outcome)[..i + 1])
      ensures forall i :: 0 < i < |renders| ==> renders[i - 1] <= renders[i]
      ensures forall i :: 0 <= i < |renders| ==> renders[i] <= messages.value[|messages.value| - 1].content
    {
      renders := [];
      if userInput != [] {
        messages := Some(messages.value + [Message(User, userInput, None)]);
        var fullResponse;
        fullResponse, renders := StreamInto(StreamAskQuestion(outcome));
        messages := Some(messages.value + [Message(Assistant, fullResponse, None)]);
      }
    }
  }
}
