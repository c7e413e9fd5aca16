# Godiva chatbot: proxy and chat-page session model

This project models the two halves of the Godiva wealth-management chatbot in Dafny.

- **The LitServe proxy** (`chat_server.py`):
  - `decode_request` fills in defaults for a missing query or session id.
  - `predict` deep-copies the fixed pipeline configuration `TWEAKS` and rebinds three of its twelve components to the request's query and session. It posts `{output_type, input_type, tweaks}` to the remote pipeline and collapses every failure to `{"error": "Service unavailable"}`.
  - `encode_response` projects `bot_response` or the word `"Error"`.
  - `health_check` returns a constant body.
- **The Streamlit chat page** (`app.py`): the bookkeeping in `st.session_state`, modelled as the class `ChatPage.SessionState`.
  - initialisation of absent keys;
  - "Load", "Delete" and "New Chat";
  - choosing a suggested question and consuming the pending input;
  - recording the outcome of one request: how `fetch_response` turns the HTTP outcome into a reply or an error text, the consecutive-error counter, the restart hint after three errors, and the apology message added for connection-type errors.

The main results:

- The payload binds the query and the session exactly into the chat input, the Redis memory and the memory component.
- Every other component is the template's. The chat output and both message stores keep an empty `session_id`.
- The counter always equals the number of failed requests since the last success or the last "New Chat", whichever came later ("Load" does not reset it).
- The page apologises exactly for a connection failure, or for an error whose free text (the exception text, or the first 100 characters of a non-200 body) mentions "Connection error" or "Service unavailable". The restart hint never changes this.
- `session_map` stays an exact index of `chat_history` under "New Chat", and under "Delete" only when the last conversation is deleted.
- `RoundTrip` connects the page to the proxy. With the proxy as written, every request the proxy answers ends as the assistant message "Error", and such a request never raises the counter, shows the hint or records the apology. A connection failure or timeout between the page and the proxy still takes the page's error path.

The model follows the code wherever a stricter design would differ:

- `decode_request` neither trims nor rejects an empty query or session id.
- Only three of the six components with a `session_id` field receive the session id; `ChatServer.PartialSessionBinding` states exactly which keep the empty id.
- No answer is extracted from the pipeline's response.

Modules: `Wrappers` (Option), `JsonValues` (JSON values, `dict.get`), `PyStrings` (Python's substring test, slicing and integer rendering), `ChatServer`, `ChatPage`, `RoundTrip`.

## Model

| member | source | states |
|---|---|---|
| ChatServer.HealthCheck | chat_server.py:12-14 | the health body has exactly the keys status and service, with "ready" and "chat_api" |
| ChatServer.DecodeRequest | chat_server.py:144-148 | each field is read with dict.get: a present query or session_id is taken as sent, a missing query becomes "" and a missing session_id the generated id |
| ChatServer.DecodeIsLossless | chat_server.py:144-148 | any query and session id sent, empty ones included, are decoded unchanged whatever other fields the body has |
| ChatServer.DecodeDefaultsQuery | chat_server.py:146 | a request without a query decodes to the empty query |
| ChatServer.FreshIdUsedOnlyWhenAbsent | chat_server.py:147 | the generated id influences the session id if and only if the request has no session_id key, and is then used verbatim |
| ChatServer.NamesDistinct | chat_server.py:20-135 | the twelve component keys of the table are pairwise different |
| ChatServer.Update | chat_server.py:157-173 | dict.update and {**d, **changes}: the keys of both, a changed key takes the new value, every other key keeps its old value |
| ChatServer.SessionOverrides | chat_server.py:157-173 | the rebuilt components are exactly the chat input, the Redis memory and the memory, each its template with exactly its new fields set |
| ChatServer.BindSession | chat_server.py:154-173 | binding neither adds nor drops a component of the table |
| ChatServer.BindingFrame | chat_server.py:154-173 | components outside the three rebound ones are identical to the table's; each rebound one equals its template with exactly its new fields set |
| ChatServer.BoundFieldValues | chat_server.py:157-173 | the chat input holds the query and the session id; the Redis memory holds the session id, key prefix "godiva:"+id and ttl 172800; the memory holds the session id |
| ChatServer.SessionFieldAfterBinding | chat_server.py:157-173 | a component's session_id after binding is the request's for the three rebound components and the table's own for every other |
| ChatServer.RebindingForgetsEarlierBinding | chat_server.py:154-173 | binding a table that already carries an earlier binding gives the same payload as binding the pristine table: no earlier request leaks into a later one |
| ChatServer.BuildPayload | chat_server.py:154-179 | the payload posted has output and input type "chat" and as tweaks exactly the bound copy of the table, whose contents BindingFrame gives |
| ChatServer.MasterComponents | chat_server.py:20-135 | the table holds all twelve components, each with its template, the three rebound ones among them |
| ChatServer.TemplateSessionField | chat_server.py:20-135 | exactly six templates carry a session_id field (chat input, memory, chat output, Redis memory, both message stores), every one empty |
| ChatServer.RedisTemplateHasNoTtl | chat_server.py:114-122 | the Redis template has no ttl field and an empty key prefix, so binding adds ttl rather than replacing it |
| ChatServer.PartialSessionBinding | chat_server.py:154-173 | in the deployed payload the six components with a session_id field are exactly the session-aware ones; the three rebound ones carry the request's id, the chat output and both message stores keep "" |
| ChatServer.Predict | chat_server.py:150-194 | corrected predict: an answer from the pipeline becomes {"bot_response": answer}; every failure becomes exactly {"error": "Service unavailable"} |
| ChatServer.PredictAsWritten | chat_server.py:181-194 | predict as written always returns {"error": "Service unavailable"}, because the success path raises on the undefined name at line 190 |
| ChatServer.PredictShapes | chat_server.py:181-194 | the result of predict is either a single bot_response field or exactly the service-unavailable error |
| ChatServer.AsWrittenDiscardsAnswers | chat_server.py:187-194 | for a pipeline that answers, the corrected predict returns the answer while the code as written returns the error |
| ChatServer.EncodeResponse | chat_server.py:196-197 | the response has the single key response, holding bot_response when present and "Error" otherwise |
| ChatServer.Handle | chat_server.py:144-197 | a whole request is answered with a body whose only key is response |
| ChatServer.HandleAsWritten | chat_server.py:144-197 | as written, a whole request is answered with the single key response holding "Error" |
| ChatServer.HandleReplies | chat_server.py:144-197 | a whole request yields the pipeline's answer or the bare word "Error"; the failure text never leaves the proxy |
| ChatServer.HandleAsWrittenAlwaysErrors | chat_server.py:144-197 | as written, any two requests, whatever their query, session and pipeline outcome, get the same answer {"response": "Error"} |
| JsonValues.Get | chat_server.py:197 | dict.get: the stored value for a present key, the default for a missing one |
| PyStrings.ContainsIffOccurs | app.py:323 | the substring test holds exactly when the text occurs at some position |
| PyStrings.Take | app.py:274 | the slice [:100] is the prefix of exactly min(len, 100) characters, the whole text when shorter |
| PyStrings.DecimalString | app.py:274 | the rendered status code is a run of decimal digits whose value is the status, with no leading zero, one digit exactly below 10 |
| ChatPage.ClassifyParsed | app.py:262-293 | a parsed 200 body leaves a reply exactly when it is a JSON object, the reply being its response field or "No response received"; it leaves no error exactly when that reply is a string or list; any error starts "Unexpected error: " |
| ChatPage.Classify | app.py:261-293 | fetch_response leaves either a reply and no error, or a non-empty error text |
| ChatPage.ClassifySucceedsIff | app.py:261-293 | a request ends without error exactly when the status is 200, the body is a JSON object and its response field (default "No response received") is a string or list, and the reply is then that field |
| ChatPage.NextErrorCount | app.py:261-293 | after one request error_count is positive exactly when the request left an error, and is then the old count plus one |
| ChatPage.ErrorCountAfter | app.py:261-293 | over a series of requests error_count grows by at most one per request, and is positive exactly when the last request failed |
| ChatPage.CounterStep | app.py:261-293 | a non-200 status, a malformed body, a 200 body that is not an object or whose reply is neither string nor list, a connection failure, a timeout and any other exception each add exactly one to error_count (so does every request that delivers no reply); a delivered reply resets it to 0 |
| ChatPage.ErrorCountIsTrailingFailures | app.py:261-293 | from 0, error_count is the length of the run of failed requests at the end of the series: all of those failed and the one before them did not |
| ChatPage.FailuresAccumulate | app.py:261-293 | a series of failures raises the counter by its length from any starting value |
| ChatPage.DisplayedError | app.py:316-317 | the shown error is the error text itself below 3, and from 3 on exactly the text followed by the restart hint |
| ChatPage.HintAfterThreeFailuresInARow | app.py:316-317 | in a fresh conversation the counter reaches 3 after a failure exactly when the two requests before it failed too |
| ChatPage.HintKeepsApology | app.py:316-323 | appending the restart hint never changes whether the apology is recorded |
| ChatPage.ServiceErrorApology | app.py:274 | for a non-200 status the status line never triggers the apology; only the body text can |
| ChatPage.InvalidJsonApology | app.py:269 | for a malformed body only the parser's message can trigger the apology |
| ChatPage.ApologisesIffCause | app.py:312-327 | the apology is recorded exactly after a connection failure, or when the timeout, other-exception or malformed-body text, or the first 100 characters of a non-200 body, mention "Connection error" or "Service unavailable" |
| ChatPage.Exchange | app.py:234-331 | one request appends the user's message then at most one assistant message: the reply when there is no error, otherwise only the apology text |
| ChatPage.Shown | app.py:312-331 | the placeholder shows an error box exactly when there is an error, holding exactly the error text with the restart hint from a count of 3 on, and otherwise the reply |
| ChatPage.ExchangeOutcome | app.py:234-331 | one request adds the user's message then at most one assistant message: the delivered reply, or after an error the apology exactly for its causes |
| ChatPage.ArchivedHistory | app.py:190-195 | New Chat leaves an empty conversation unarchived; a non-empty one is appended with its session id after the unchanged earlier entries |
| ChatPage.ArchivedMap | app.py:190-196 | New Chat leaves the map unchanged for an empty conversation; otherwise it maps len+1 to the session id and keeps every other entry |
| ChatPage.RemoveConversation | app.py:181 | deleting conversation idx drops element idx-1 and shifts every later conversation down by one |
| ChatPage.ForgetIndex | app.py:182-183 | deleting removes key idx from session_map and leaves every other entry and key as it was |
| ChatPage.ArchiveKeepsMirror | app.py:189-196 | New Chat keeps session_map an exact index from 1-based positions to the sessions of chat_history |
| ChatPage.ArchiveThenLoad | app.py:174-196 | New Chat lists a non-empty conversation under the index its session_map entry names, with that entry's session id, so Load of that index reads back exactly its messages and session id |
| ChatPage.DeleteKeepsMirrorIffLast | app.py:180-184 | after Delete, session_map still indexes chat_history exactly when the deleted conversation was the last one |
| ChatPage.SessionState.constructor | app.py:84-96 | a new browser session has no key set and no pending input |
| ChatPage.SessionState.Initialise | app.py:84-96 | every absent key gets its initial value (empty lists and map, false, 0, the fresh id) and every present key keeps its value, so re-running changes nothing |
| ChatPage.SessionState.Load | app.py:174-177 | the current conversation and session id become those of entry idx; history, map, counter and template flag are untouched |
| ChatPage.SessionState.Delete | app.py:180-184 | the history and map become RemoveConversation and ForgetIndex of the old ones; nothing else changes |
| ChatPage.SessionState.NewChat | app.py:189-204 | a non-empty conversation is archived with its session id under index len+1; then the conversation is empty, the template offer and the counter are reset and the session id is the fresh one |
| ChatPage.SessionState.SelectTemplate | app.py:216-218 | choosing a suggested question on an empty, unused conversation makes it the pending input and marks the template as used |
| ChatPage.SessionState.TakeInput | app.py:228-232 | a pending question is taken as this run's input and consumed; otherwise the typed input is used and the pending value stays |
| ChatPage.SessionState.Submit | app.py:234-331 | the counter becomes its successor for the outcome, the conversation grows by the exchange, the display is the reply or the error with the hint, and nothing else changes |
| RoundTrip.PagePayload | app.py:249-252 | the page posts exactly the fields query and session_id |
| RoundTrip.PageSessionReachesPipeline | app.py:249-252 | the proxy decodes the page's body to its own query and session without generating an id, and that session id lands in the three rebound components |
| RoundTrip.ProxyRepliesReachConversation | app.py:261-267 | with the corrected proxy, a string or list answer becomes the assistant's message; an unavailable pipeline arrives as the assistant message "Error" with the counter reset and no apology |
| RoundTrip.AsWrittenPageAlwaysShowsError | app.py:261-267 | with the proxy as written, every request becomes the assistant message "Error": no error is counted, and neither hint nor apology appears |

## Left out

- Network I/O is not modelled. The outbound POST to the pipeline (chat_server.py:182-187) is the oracle `remote`, and the page's POST (app.py:255-259) is the `FetchOutcome` parameter. Timeouts and the request and response wire formats are left out.
- The extraction of an answer from the pipeline's response is not modelled. The code has none (line 190 names an undefined variable), so `RemoteOutcome.Answered` carries the answer opaquely.
- LitServer/FastAPI wiring, CORS and server start-up are not modelled; they are framework configuration.
- The subprocess launch and the readiness polling of app.py are not modelled; they are process supervision and wall-clock time.
- The thread around `fetch_response` is not modelled. It is joined at once, so the model runs the request inline. The model also assumes the thread can read and write `st.session_state`.
- Rendering, CSS, spinners, `time.sleep`, the sidebar preview, logging and `st.rerun` are not modelled; they are presentation and control of Streamlit's script reruns.
- Generated ids (`uuid4`) are parameters, and nothing about their uniqueness is assumed.
- The two long prose strings of `TWEAKS` (prompt template and system message) are short stand-ins. They are carried through unchanged, and no property depends on their text.
- Python dict key order is not modelled; JSON objects are maps.
- Request fields are modelled as strings only. A body whose `query` or `session_id` is not a string is not modelled.
- The texts of Python's own exceptions are given as in Python 3.11. Slicing a dict reply raises "unhashable type: 'slice'"; later versions raise a `KeyError` with a different text, which never triggers the apology either.
- ChatServer.Predict: the corrected success path is stated for an answer as the pipeline delivers it. What `processed_response` was meant to be computed from is not known.

## Findings

| source | as written | input that shows it | evidently intended | confidence | as-written member | corrected member |
|---|---|---|---|---|---|---|
| chat_server.py:190 | after a successful POST, `predict` returns `{"bot_response": processed_response}`, a name never defined, so a `NameError` is raised and caught by `except Exception`, giving `{"error": "Service unavailable"}` | any request for which the pipeline answers, e.g. answer "an answer": the proxy replies `{"response": "Error"}` | return the pipeline's answer as `bot_response` | high; not executed | ChatServer.PredictAsWritten | ChatServer.Predict |
