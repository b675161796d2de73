/**
 * The request helpers of the front end (frontend/app.py): each one turns what the backend
 * answered, or the exception `requests` raised, into the value the page works with.
 * The HTTP traffic itself is not modelled: an exchange is given as data.
 */
module Gateway {
  import opened Wrappers

  /** A response as the client sees it: the status code, and the body decoded as JSON
      (`None` when `response.json()` would raise because the body is not JSON). */
  datatype Response<T> = Response(status: int, json: Option<T>)

  /** One `requests` call: either a response arrived, or an exception was raised first. */
  datatype Exchange<T> =
    | Answered(response: Response<T>)
    | ConnectionError   // requests.exceptions.ConnectionError
    | OtherError        // any other exception (timeout, invalid URL, ...)

  /** The liveness probe's outcome: a status code, or any exception (including the 5 s timeout). */
  datatype Probe = Reached(status: int) | Unreachable

  /** The JSON object returned by POST /upload: its integer `chunks` field if present,
      and how many other fields it holds. */
  datatype UploadReply = UploadReply(chunks: Option<int>, otherFields: nat)

  /** The JSON object returned by POST /query. */
  datatype AnswerReply = AnswerReply(answer: Option<string>, sources: Option<seq<string>>, otherFields: nat)

  /** The nested `vector_store` object of GET /status. */
  datatype VectorStore = VectorStore(documentCount: Option<int>, otherFields: nat)

  /** The JSON object returned by GET /status. */
  datatype StatusReply = StatusReply(vectorStore: Option<VectorStore>, otherFields: nat)

  /** Python's truth value of a dict: it is true exactly when the dict is non-empty. */
  predicate UploadTruthy(reply: UploadReply) {
    reply.chunks.Some? || reply.otherFields > 0
  }

  predicate StatusTruthy(reply: StatusReply) {
    reply.vectorStore.Some? || reply.otherFields > 0
  }

  /** An exchange that ended with status 200 and a body that decodes as JSON. */
  predicate Succeeded<T>(e: Exchange<T>) {
    e.Answered? && e.response.status == 200 && e.response.json.Some?
  }

  /** Shared shape of the JSON helpers: the decoded body on 200, `None` on every other
      status and on every exception (the helpers catch them all). */
  function JsonOn200<T>(e: Exchange<T>): Option<T> {
    match e
    case Answered(resp) => if resp.status == 200 then resp.json else None
    case ConnectionError => None
    case OtherError => None
  }

  /** `upload_pdf_to_api`. */
  function UploadPdf(e: Exchange<UploadReply>): (r: Option<UploadReply>)
    ensures r.Some? <==> Succeeded(e)
    ensures r.Some? ==> r.value == e.response.json.value
    ensures e.ConnectionError? || e.OtherError? ==> r == None
  {
    JsonOn200(e)
  }

  /** `ask_question_to_api` (the synchronous path; `top_k` is accepted but never sent). */
  function AskQuestion(e: Exchange<AnswerReply>): (r: Option<AnswerReply>)
    ensures r.Some? <==> Succeeded(e)
    ensures r.Some? ==> r.value == e.response.json.value
    ensures e.Answered? && e.response.status != 200 ==> r == None
  {
    JsonOn200(e)
  }

  /** `get_system_status`. */
  function GetSystemStatus(e: Exchange<StatusReply>): (r: Option<StatusReply>)
    ensures r.Some? <==> Succeeded(e)
    ensures r.Some? ==> r.value == e.response.json.value
  {
    JsonOn200(e)
  }

  /** `check_api_health`: true exactly when the probe got status 200. */
  function CheckApiHealth(p: Probe): (up: bool)
    ensures up <==> p == Reached(200)
    ensures p.Unreachable? ==> !up
  {
    match p
    case Reached(status) => status == 200
    case Unreachable => false
  }

  // ---------------------------------------------------------------- streaming

  /** How the body of a 200 streaming response ended. */
  datatype StreamEnd =
    | Finished            // the body was read to its end
    | DroppedConnection   // a ConnectionError was raised while reading it
    | DroppedOther        // any other exception was raised while reading it

  /** The outcome of POST /query-stream: a response whose body fragments were delivered in
      this order, or an exception raised before any response arrived. */
  datatype StreamOutcome =
    | Opened(status: int, body: seq<string>, end: StreamEnd)
    | ConnectionError   // requests.exceptions.ConnectionError before any response
    | OtherError        // any other exception before any response

  const SorryFallback: string := "Sorry, I couldn't process your question. Please try again."
  const ConnectFallback: string := "Cannot connect to backend API. Please make sure the server is running."

  /** A 200 response whose body was read to its end. */
  predicate StreamedCleanly(o: StreamOutcome) {
    o.Opened? && o.status == 200 && o.end == Finished
  }

  /** The fixed message a failed stream ends with: the connection message for connection
      errors, the apology for everything else. */
  function FallbackFor(o: StreamOutcome): string {
    if o.ConnectionError? || (o.Opened? && o.status == 200 && o.end == DroppedConnection)
    then ConnectFallback
    else SorryFallback
  }

  /** `stream_ask_question`: the fragments the generator yields, in order. */
  function StreamAskQuestion(o: StreamOutcome): (fragments: seq<string>)
    ensures StreamedCleanly(o) ==> fragments == o.body
    ensures o.Opened? && o.status == 200 ==> o.body <= fragments
    ensures !StreamedCleanly(o) ==>
      |fragments| == (if o.Opened? && o.status == 200 then |o.body| + 1 else 1)
    ensures !StreamedCleanly(o) ==> fragments[|fragments| - 1] == FallbackFor(o)
  {
    match o
    case Opened(status, body, end) =>
      if status != 200 then [SorryFallback]
      else
        (match end
         case Finished => body
         case DroppedConnection => body + [ConnectFallback]
         case DroppedOther => body + [SorryFallback])
    case ConnectionError => [ConnectFallback]
    case OtherError => [SorryFallback]
  }

  // ---------------------------------------------------------------- status panel

  /** The `vector_store.document_count` value of a status reply, if both keys are present. */
  function ReportedCount(reply: StatusReply): Option<int> {
    match reply.vectorStore
    case None => None
    case Some(store) => store.documentCount
  }

  /** The `doc_count` expression: `system_status.get("vector_store", {}).get("document_count", 0)`
      when `system_status` is truthy, else 0. */
  function DocCount(systemStatus: Option<StatusReply>): (n: int)
    ensures systemStatus.Some? ==> n == ReportedCount(systemStatus.value).GetOr(0)
    ensures systemStatus.None? ==> n == 0
  {
    if systemStatus.Some? && StatusTruthy(systemStatus.value) then
      match systemStatus.value.vectorStore
      case None => 0
      case Some(store) => store.documentCount.GetOr(0)
    else
      0
  }

  /** The "API Status" and "Documents" metrics of the sidebar. */
  datatype StatusPanel = StatusPanel(connected: bool, documents: int)

  /** The status probes of `main()`: the health check first, the status request only when it
      succeeded. */
  function SidebarStatus(health: Probe, status: Exchange<StatusReply>): (panel: StatusPanel)
    ensures panel.connected <==> health == Reached(200)
    ensures panel.documents ==
      if panel.connected && Succeeded(status) && ReportedCount(status.response.json.value).Some?
      then ReportedCount(status.response.json.value).value
      else 0
  {
    var connected := CheckApiHealth(health);
    var systemStatus := if connected then GetSystemStatus(status) else None;
    StatusPanel(connected, DocCount(systemStatus))
  }
}
