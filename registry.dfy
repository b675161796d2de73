/**
 * The knowledge-base registry, `st.session_state.processed_files` in frontend/app.py:
 * a dict from file name to `{chunks, status, timestamp}`, written by the batch-upload loop
 * and summed up by the sidebar.
 */
module Registry {
  import opened Wrappers
  import opened Gateway

  /** One registry value. */
  datatype Entry = Entry(chunks: int, status: string, timestamp: string)

  /** The status text every written entry carries. */
  const ProcessedStatus: string := "\U{2705} Processed"

  /** One file of a batch: its name, what the upload request produced, and the clock
      reading (`datetime.now().strftime("%H:%M:%S")`) taken if the upload is recorded. */
  datatype Upload = Upload(name: string, outcome: Exchange<UploadReply>, clock: string)

  /** What `if result:` lets through: the chunk count to record (`result.get('chunks', 0)`),
      or `None` when the upload is skipped. */
  function Accepted(u: Upload): (chunks: Option<int>)
    ensures chunks.Some? <==> Succeeded(u.outcome) && UploadTruthy(u.outcome.response.json.value)
    ensures chunks.Some? ==> chunks.value == u.outcome.response.json.value.chunks.GetOr(0)
    ensures u.outcome.ConnectionError? || u.outcome.OtherError? ==> chunks.None?
  {
    match UploadPdf(u.outcome)
    case None => None
    case Some(reply) => if UploadTruthy(reply) then Some(reply.chunks.GetOr(0)) else None
  }

  /** The registry after one iteration of the batch loop. */
  function Record(registry: map<string, Entry>, u: Upload): map<string, Entry> {
    match Accepted(u)
    case None => registry
    case Some(c) => registry[u.name := Entry(c, ProcessedStatus, u.clock)]
  }

  /** The registry after the batch loop has run over `uploads`, in order. */
  function ApplyUploads(registry: map<string, Entry>, uploads: seq<Upload>): map<string, Entry>
    decreases |uploads|
  {
    if uploads == [] then registry
    else Record(ApplyUploads(registry, uploads[..|uploads| - 1]), uploads[|uploads| - 1])
  }

  /** The batch's `total_chunks`: the sum of the recorded chunk counts. */
  function BatchChunks(uploads: seq<Upload>): int
    decreases |uploads|
  {
    if uploads == [] then 0
    else
      var last := uploads[|uploads| - 1];
      BatchChunks(uploads[..|uploads| - 1]) + Accepted(last).GetOr(0)
  }

  /** The batch's `processed_files` list: one name per recorded upload, repeats included. */
  function BatchNames(uploads: seq<Upload>): seq<string>
    decreases |uploads|
  {
    if uploads == [] then []
    else
      var last := uploads[|uploads| - 1];
      BatchNames(uploads[..|uploads| - 1]) + (if Accepted(last).Some? then [last.name] else [])
  }

  /** The sidebar's total: the sum of `chunks` over every registry entry. */
  ghost function TotalChunks(registry: map<string, Entry>): int
    decreases |registry|
  {
    if registry == map[] then 0
    else
      var k :| k in registry;
      registry[k].chunks + TotalChunks(registry - {k})
  }

  // ---------------------------------------------------------------- the sum

  /** The sum does not depend on which entry is taken out first. */
  lemma {:induction false} TotalChunksRemove(registry: map<string, Entry>, k: string)
    requires k in registry
    ensures TotalChunks(registry) == registry[k].chunks + TotalChunks(registry - {k})
    decreases |registry|
  {
    var j :| j in registry && TotalChunks(registry) == registry[j].chunks + TotalChunks(registry - {j});
    if j != k {
      var rest := registry - {j} - {k};
      assert registry - {k} - {j} == rest;
      TotalChunksRemove(registry - {j}, k);
      TotalChunksRemove(registry - {k}, j);
    }
  }

  /** Writing an entry replaces the old entry's chunks, if any, by the new ones. */
  lemma TotalChunksUpsert(registry: map<string, Entry>, name: string, e: Entry)
    ensures TotalChunks(registry[name := e]) ==
      TotalChunks(registry) - (if name in registry then registry[name].chunks else 0) + e.chunks
    ensures |registry[name := e]| == |registry| + (if name in registry then 0 else 1)
  {
    var updated := registry[name := e];
    TotalChunksRemove(updated, name);
    if name in registry {
      assert updated - {name} == registry - {name};
      TotalChunksRemove(registry, name);
    } else {
      assert updated - {name} == registry;
    }
  }

  /** The sidebar's "Total Content" loop: adds up `chunks` over the registry, and counts it. */
  method RegistryTotals(registry: map<string, Entry>) returns (total: int, count: nat)
    ensures total == TotalChunks(registry)
    ensures count == |registry|
  {
    var rest := registry;
    total := 0;
    while rest != map[]
      invariant total + TotalChunks(rest) == TotalChunks(registry)
      decreases |rest|
    {
      var k :| k in rest;
      TotalChunksRemove(rest, k);
      total := total + rest[k].chunks;
      rest := rest - {k};
    }
    count := |registry|;
  }

  // ---------------------------------------------------------------- the batch

  /** Running the loop over `a + b` is running it over `a`, then over `b`. */
  lemma {:induction false} BatchSplit(registry: map<string, Entry>, a: seq<Upload>, b: seq<Upload>)
    ensures ApplyUploads(registry, a + b) == ApplyUploads(ApplyUploads(registry, a), b)
    ensures BatchChunks(a + b) == BatchChunks(a) + BatchChunks(b)
    ensures BatchNames(a + b) == BatchNames(a) + BatchNames(b)
    decreases |b|
  {
    if b == [] {
      assert a + b == a;
    } else {
      var front := b[..|b| - 1];
      assert (a + b)[..|a + b| - 1] == a + front;
      assert (a + b)[|a + b| - 1] == b[|b| - 1];
      BatchSplit(registry, a, front);
    }
  }

  /** An upload that returned no result changes neither the registry nor the batch
      summary, and the uploads after it are processed as if it were not there. */
  lemma FailedUploadSkipped(registry: map<string, Entry>, a: seq<Upload>, u: Upload, b: seq<Upload>)
    requires Accepted(u).None?
    ensures ApplyUploads(registry, a + [u] + b) == ApplyUploads(registry, a + b)
    ensures BatchChunks(a + [u] + b) == BatchChunks(a + b)
    ensures BatchNames(a + [u] + b) == BatchNames(a + b)
  {
    BatchSplit(registry, a + [u], b);
    BatchSplit(registry, a, b);
    assert (a + [u])[..|a + [u]| - 1] == a;
  }

  /** After a batch the registry holds the old names plus the recorded ones; every entry
      whose name was not recorded is untouched. */
  lemma {:induction false} ApplyUploadsFrame(registry: map<string, Entry>, uploads: seq<Upload>)
    ensures forall n :: n in ApplyUploads(registry, uploads) <==> n in registry || n in BatchNames(uploads)
    ensures forall n :: n in registry && n !in BatchNames(uploads) ==>
      ApplyUploads(registry, uploads)[n] == registry[n]
    decreases |uploads|
  {
    if uploads != [] {
      ApplyUploadsFrame(registry, uploads[..|uploads| - 1]);
    }
  }

  /** Writes are upserts: a batch into an empty registry leaves one entry per distinct
      recorded name, however many times each name was uploaded. */
  lemma RegistrySize(uploads: seq<Upload>)
    ensures |ApplyUploads(map[], uploads)| == |set n | n in BatchNames(uploads)|
  {
    ApplyUploadsFrame(map[], uploads);
    assert ApplyUploads(map[], uploads).Keys == set n | n in BatchNames(uploads);
  }

  /** The last recorded upload of a name decides its entry. */
  lemma {:induction false} LastUploadWins(registry: map<string, Entry>, uploads: seq<Upload>, i: nat)
    requires i < |uploads| && Accepted(uploads[i]).Some?
    requires forall j :: i < j < |uploads| && Accepted(uploads[j]).Some? ==> uploads[j].name != uploads[i].name
    ensures uploads[i].name in ApplyUploads(registry, uploads)
    ensures ApplyUploads(registry, uploads)[uploads[i].name] ==
      Entry(Accepted(uploads[i]).value, ProcessedStatus, uploads[i].clock)
    decreases |uploads|
  {
    var front := uploads[..|uploads| - 1];
    if i < |uploads| - 1 {
      assert forall j :: i < j < |front| ==> front[j] == uploads[j];
      LastUploadWins(registry, front, i);
    } else {
      assert front + [uploads[i]] == uploads;
    }
  }

  /** Names pairwise different. */
  predicate Distinct(names: seq<string>) {
    forall i, j :: 0 <= i < j < |names| ==> names[i] != names[j]
  }

  /** When the batch records pairwise different names that are new to the registry, the
      sidebar total grows by exactly the batch's `total_chunks`. */
  lemma {:induction false} FreshBatchTotal(registry: map<string, Entry>, uploads: seq<Upload>)
    requires Distinct(BatchNames(uploads))
    requires forall n :: n in BatchNames(uploads) ==> n !in registry
    ensures TotalChunks(ApplyUploads(registry, uploads)) == TotalChunks(registry) + BatchChunks(uploads)
    ensures |ApplyUploads(registry, uploads)| == |registry| + |BatchNames(uploads)|
    decreases |uploads|
  {
    if uploads != [] {
      var front := uploads[..|uploads| - 1];
      var last := uploads[|uploads| - 1];
      var names := BatchNames(uploads);
      assert BatchNames(front) == names[..|BatchNames(front)|];
      FreshBatchTotal(registry, front);
      match Accepted(last)
      case None =>
      case Some(c) =>
        ApplyUploadsFrame(registry, front);
        assert names[|names| - 1] == last.name;
        assert last.name !in BatchNames(front);
        TotalChunksUpsert(ApplyUploads(registry, front), last.name, Entry(c, ProcessedStatus, last.clock));
    }
  }
}
