# Session bookkeeping of the PDF RAG chat front end

This project models, in Dafny, the state-keeping core of the Streamlit front end
`frontend/app.py` of a PDF question-answering chatbot. The page lets a user upload PDF
files to a backend, keeps a registry of the processed files, and runs a chat whose answers
arrive as a stream of text fragments. The model leaves out everything visual. The backend is
given as data: each HTTP exchange is a status code plus a decoded JSON body, or the exception
raised instead.

- `Gateway` (gateway.dfy): the request helpers `upload_pdf_to_api`, `ask_question_to_api`,
  `stream_ask_question`, `check_api_health` and `get_system_status`, plus the sidebar's
  document-count expression. Python's "an empty dict is false" is modelled: reply types carry
  the keys the page reads and a count of the other keys.
- `Registry` (registry.dfy): `processed_files`, a map from file name to
  `{chunks, status, timestamp}`. It covers the batch-upload loop as a fold of upserts and the
  sidebar's chunk total as a sum over the map.
- `Transcript` (transcript.dfy): `messages`, a list of role/content records, and the loop that
  joins streamed fragments into `full_response`.
- `Session` (session.dfy): the class `SessionState`, one field per `st.session_state` key
  (`None` while the key is absent). Its methods are the initialisation block, the
  "Process Documents" loop, "Clear Chat" and the chat-input handler.
- `Wrappers` (wrappers.dfy): `Option`.

Behaviour of the code worth knowing:

- The page has no busy flag: a question is handled whenever the chat input is non-empty (frontend/app.py:574).
- `top_k` is accepted by the query helpers but never sent; the request carries only `query` (frontend/app.py:293, :311).
- The helpers report failure as `None` or `False`, not as an error value (frontend/app.py:282-288, :300-306, :331-332, :340-342).
- The streaming generator reports failure by yielding one fixed text (frontend/app.py:318, :321, :324).
- An exception raised while a 200 body is being read is caught by the same handlers. The fallback text is then yielded after the fragments already delivered (frontend/app.py:314-324).
- The health probe requests `/docs` on the server root (frontend/app.py:329).
- Streamed answers are stored without `sources` (frontend/app.py:587-590).

## Model

| member | source | states |
|---|---|---|
| `Gateway.UploadPdf` | frontend/app.py:272-288 | result is the decoded body exactly when status is 200 and the body is JSON; `None` for any other status and for every exception |
| `Gateway.AskQuestion` | frontend/app.py:290-306 | same normalisation for the synchronous query: the body on 200, `None` on non-200 or any failure |
| `Gateway.StreamAskQuestion` | frontend/app.py:308-324 | on a clean 200, exactly the body fragments in order; a 200 body is always a prefix of what is yielded; otherwise exactly one extra fragment (or only one fragment when no 200 arrived), the connection message for connection errors and the apology otherwise |
| `Gateway.CheckApiHealth` | frontend/app.py:326-332 | true iff the probe got status 200; false whenever the probe raised |
| `Gateway.GetSystemStatus` | frontend/app.py:334-342 | the status JSON only on 200 with a JSON body, `None` on any failure |
| `Gateway.DocCount` | frontend/app.py:415 | the `vector_store.document_count` value when present, else 0; 0 when there is no status; the dict-truthiness test never changes the result |
| `Gateway.SidebarStatus` | frontend/app.py:401-416 | connected iff the health probe got 200; displayed count is 0 unless connected, the status request succeeded and the nested key is present, in which case it is that value |
| `Registry.Accepted` | frontend/app.py:508-510 | an upload is recorded iff the upload helper returned a non-empty dict; its chunk count is `chunks` or 0 when absent; exceptions are never recorded |
| `Registry.TotalChunksRemove` | frontend/app.py:429 | the registry sum is independent of the order entries are taken in |
| `Registry.TotalChunksUpsert` | frontend/app.py:512-516 | writing a name replaces its old chunk count in the total, and grows the entry count only for a new name |
| `Registry.RegistryTotals` | frontend/app.py:423-438 | the sidebar's total is the sum of `chunks` over all entries and its document count is the number of entries |
| `Registry.BatchSplit` | frontend/app.py:504-521 | running the batch loop over two consecutive parts equals running it over the whole: registry, chunk total and name list compose |
| `Registry.FailedUploadSkipped` | frontend/app.py:506-519 | an upload without a result leaves the registry, total and name list as if it were absent, and later files are still processed |
| `Registry.ApplyUploadsFrame` | frontend/app.py:506-517 | after a batch the registry keys are the old keys plus the recorded names; entries of names not recorded are unchanged |
| `Registry.RegistrySize` | frontend/app.py:512-516 | from an empty registry, the entry count is the number of distinct recorded names, not the number of uploads |
| `Registry.LastUploadWins` | frontend/app.py:512-516 | re-uploading a name overwrites: a name's entry is the one written by its last recorded upload |
| `Registry.FreshBatchTotal` | frontend/app.py:504-517 | for a batch of distinct new names, the registry total grows by exactly the batch `total_chunks` and the count by the number of names |
| `Transcript.ConcatAppend` | frontend/app.py:583-584 | joining fragments distributes over concatenation of fragment lists |
| `Transcript.ConcatSplit` | frontend/app.py:583-584 | each fragment sits in the answer between the fragments before it and after it, unaltered |
| `Transcript.ConcatPrefix` | frontend/app.py:583-585 | the answer built from any prefix of the fragments is a prefix of the final answer |
| `Transcript.StreamInto` | frontend/app.py:581-585 | the final answer is all fragments joined in order; one render per fragment, each the answer so far, each a prefix of the next and of the final answer |
| `Session.StreamedAnswer` | frontend/app.py:581-590 | the assistant turn is the body joined on a clean 200, the body so far plus the fallback when cut off, and the fallback alone without a 200 |
| `Session.SessionState.constructor` | frontend/app.py:382-392 | a new session has none of the keys yet |
| `Session.SessionState.Initialize` | frontend/app.py:381-392 | each key is created only when absent (registry empty, transcript the single greeting); on an initialised session it changes nothing |
| `Session.SessionState.ProcessDocuments` | frontend/app.py:501-521 | the registry becomes the fold of upserts over the batch; returns the batch chunk total and one name per recorded upload; the transcript is untouched |
| `Session.SessionState.ClearChat` | frontend/app.py:537-542 | the transcript becomes exactly one assistant "Chat cleared!" message whatever its length was; the registry is untouched |
| `Session.SessionState.AskQuestion` | frontend/app.py:574-590 | a non-empty question appends exactly a user turn and then an assistant turn holding all streamed fragments joined, without sources; earlier turns and the registry are unchanged; one render per fragment, each the answer so far and a prefix of the next; an empty input changes nothing |

## Left out

- CSS, HTML and layout (`load_modern_css`, `display_modern_message`, `create_document_card`, every `st.*` widget): presentation only.
- The HTTP calls themselves, multipart encoding, `iter_content` and timeouts: network I/O, given as data instead.
- `time.sleep`, `st.balloons`, `st.rerun`, `st.error`/`st.success` notices and the batch status label: side effects with no session state.
- The clock: the `datetime.now()` timestamp of an entry is a parameter of each upload.
- `top_k`: it is accepted by the helpers but never sent, and its 1..10 range comes from the slider widget.
- The widget gating (`if uploaded_files`, the button presses, the sample-question buttons): the model's methods are the actions those widgets trigger; a sample question is just a question.
- JSON values outside the reply types: these types hold `chunks` and `document_count` as integers, and a body either as an object or as undecodable.
  - A float `chunks` is excluded; the page would add, store and sum it.
  - A string, float or null `document_count` is excluded; the page would display it as it is.
  - A falsy non-object body (`[]`, `0`, `""`, `null`) is modelled as an undecodable body. The page skips it the same way (`if result:`, `if system_status`).
  - The remaining excluded values make the page raise and end the run: a string or null `chunks`, a truthy non-object body, and a non-object `vector_store`.
- Gateway.StreamAskQuestion: reading `r.text` of a non-200 stream can raise a ConnectionError, and the code then yields the connection message (frontend/app.py:317, :319-321). The model always yields the apology for a non-200 status.
- `chat_history`: it is only initialised and never read; the model initialises it and nothing more.
- Entry statuses other than the processed one: the code never writes any other value.
