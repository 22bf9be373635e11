# Transit chat assistant: session store, document cache and turn logic

This project is a Dafny model of the logic under the Streamlit front end of a chat assistant for public transit in Ho Chi Minh City. The assistant is backed by the Gemini API. The model covers:

- **Session store** (`store.dfy`). The `sessions` and `messages` SQLite tables become a class with a map of sessions, a sequence of message rows in insertion order, a monotone clock and a fresh-id counter. It covers creating a session under the first free name (`prefix`, `prefix (1)`, `prefix (2)`, …), listing sessions most recent first, saving and loading messages, setting the one-way `pdfs_uploaded` flag, renaming and deleting.
- **Document upload policy** (`documents.dfy`, `App.ChatApp.UploadFiles`). `UPLOADED_FILES_CACHE` maps a session to its uploaded handles. Streamlit runs the whole script again on every interaction, so the cache is created empty at the start of every run (app.py:23) and holds only what that run uploaded. On a miss, the code walks `PDF_FILENAMES` in order and keeps a handle for each file that exists and uploads. Per-file existence and upload success are an input: a function from file name to `Missing`, `UploadFailed` or `Uploaded(handle)`.
- **Request assembly** (`wire.dfy`, `App.ChatApp.AttachDocuments`, `App.ChatApp.BuildRequest`). History roles map to `user`/`model`. A final user content starts with the prompt. File parts follow the attachment policy of the code, stated once as `App.Attached` (within the application the cache is always empty at this point, see below):
  - flag unset: upload, or use a warm cache;
  - flag set and cache warm: re-attach the cached handles;
  - flag set and cache cold: attach nothing.
- **Stream consumer** (`stream.dfy`). The stream is a sequence of events: a text delta, a function call `(name, args)`, or a raised exception.
  - The fold concatenates the text and records the calls.
  - It then derives `{search_performed, queries_used_by_gemini}` from calls named `googlesearch`/`google_search`, matched case-insensitively.
  - An exception becomes a bracketed `[Lỗi Gemini…]` reply with no summary.
- **Handlers** (`app.dfy`). Each handler is one run of the script: it starts with an empty cache, while the current session and the history carry over in the browser session's state. The chat turn saves the user message, builds the request from the history without the new prompt, consumes the stream and saves the assistant message. The new-chat, select, rename and delete handlers are modelled too.

Three behaviours of the code are modelled as written:

- **No cascade on delete.** The schema declares `ON DELETE CASCADE` (app.py:39), but foreign-key enforcement is never switched on. `Store.SessionStore.Delete` therefore removes only the session row; its message rows stay in the table. Session ids are never reissued, so these rows never show up in a live session's transcript: `App.ChatApp.NewChat` issues the next unused id and its transcript is empty (`Store.FreshIdNoTranscript`).
- **Documents go out only on the turn that uploads them.** The cache is empty at the start of every run, so a turn attaches the documents exactly when the session's stored flag is unset (app.py:177-206). The first turn whose uploads succeed sets the flag. Every later turn of that session finds the flag set and the cache empty, and sends the prompt alone. A turn whose uploads all fail leaves the flag unset, so the next turn uploads again. The cache-hit branches (app.py:124-126, 184-185, 197-206) and the cache deletions at app.py:280 and 303 are never taken in the application. `App.AttachmentAcrossRuns` and `App.ChatApp.ChatTurn` state this; `App.ChatApp.AttachDocuments` and `App.ChatApp.UploadFiles` keep the general branches of the code.
- **A call without a name raises.** A streamed function call may have no name (`None`). `None.lower()` raises inside the `try` block, so the whole turn's reply becomes `[Lỗi Gemini: 'NoneType' object has no attribute 'lower']` with no summary. `Stream.SummarizeSpec` shows that this happens exactly when some recorded call has no name.

Loading orders rows by timestamp (app.py:63). Timestamps are whole seconds, so ties happen; SQLite's `(session_id, timestamp)` index returns tied rows in insertion order. The model keeps the table in insertion order, and the store's `Valid()` keeps timestamps non-decreasing along it. Loading is therefore a filter, and `Store.SessionRowsOrdered` shows the filter keeps timestamp order.

## Model

| member | source | states |
|---|---|---|
| Text.NatToString | app.py:49 | the decimal rendering of the probe counter is non-empty and all digits |
| Text.ParseNatToString | app.py:49 | decimal formatting of the counter loses nothing: reading it back gives the counter |
| Text.SessionNameInjective | app.py:45-49 | distinct probe counters give distinct candidate names (`prefix` vs `prefix (k)`) |
| Text.NotTriedBefore | app.py:45-49 | a probe never retries a name an earlier probe tried |
| Text.NamesBelowCount | app.py:46-49 | the first n probes try n different names, so the probing loop ends |
| Store.SessionStore.FindFreeName | app.py:45-49 | the name found is `SessionName(prefix, count)`, held by no session, and every earlier candidate is held: the smallest free one |
| Store.SessionStore.CreateSession | app.py:43-53 | new session has the next unused id and an empty transcript, a name no session held (the prefix itself when free), created_at = last_updated_at = now, flag 0; nothing else changes |
| Store.SessionStore.ListSessions | app.py:55-59 | every session exactly once with its stored fields, ordered by last_updated_at descending |
| Store.IdsOfMembers | app.py:55-59 | an id is among the listed ids exactly when some listed entry carries it, so the listing names exactly the stored sessions |
| Store.MostRecentExists | app.py:57 | a non-empty set of sessions has a most recently updated member |
| Store.ListingStep | app.py:55-59 | emitting the most recent remaining session keeps the listing complete, free of repeats and sorted by last_updated_at descending |
| Store.SessionStore.LoadMessages | app.py:61-71 | the result is the session's transcript, and contains exactly the messages saved for that session |
| Store.SessionRowsMembers | app.py:63 | loading selects exactly the rows whose session_id is the one asked for |
| Store.SessionRowsOrdered | app.py:63 | the selected rows are in ascending timestamp order |
| Store.RowsWithinMeaning | app.py:63 | the table invariant every store operation keeps holds exactly when timestamps never decrease along insertion order, none is later than the clock, and every row's session id was issued |
| Store.RowsWithinLater | app.py:49-51 | a later clock and a newly issued id keep the table invariant |
| Store.FreshIdNoTranscript | app.py:43 | a session id not yet issued has no stored messages, so a new session's transcript is empty |
| Store.TranscriptAppend | app.py:73-83 | saving into a session appends exactly that message to its transcript and leaves every other transcript unchanged |
| Store.SessionStore.SaveMessage | app.py:73-83 | exactly one row appended at the save time; only its own session's last_updated_at changes; grounding stored only when present; transcript extended by the message with its summary |
| ChatTypes.GroundingRoundTrip | app.py:67-78 | a saved grounding summary loads back equal; a message saved without one loads without one |
| Store.SessionStore.SetPdfsUploaded | app.py:85-88 | sets the flag to 1 and last_updated_at to now for that session only; flags are never cleared |
| Store.SessionStore.Rename | app.py:90-94 | writes the new name and bumps last_updated_at for that session only |
| Store.SessionStore.Delete | app.py:96-100 | removes exactly that session row; message rows are kept (no cascade) |
| Store.SessionStore.constructor | app.py:26-41 | an empty database |
| Text.StripLeading | app.py:312-313 | `lstrip`: drops exactly the leading white space |
| Text.StripTrailing | app.py:312-313 | `rstrip`: drops exactly the trailing white space |
| Text.StripEmptyIffBlank | app.py:312-317 | a stripped name is empty iff the input is all white space, otherwise it has no white space at either end |
| App.ChatApp.RenameSession | app.py:306-317 | a blank name is refused and changes nothing, not even the clock; otherwise the stripped name is written and the clock advances |
| Documents.CollectedBound | app.py:128-150 | at most one handle per configured file |
| Documents.CollectedAppend | app.py:130-143 | handles are collected in file order |
| Documents.CollectedMembers | app.py:130-143 | a handle is kept iff some file exists and uploads to it |
| Documents.CollectedEmptyIff | app.py:145-149 | the result is empty iff no file uploaded |
| Documents.CollectedAllUploaded | app.py:130-137 | with every file present and uploading, one handle per file in file order |
| App.ChatApp.UploadFiles | app.py:123-150 | cache hit: the cached list, no uploads, no writes; miss: the collected handles, and cache entry and flag set iff non-empty, else nothing changes |
| App.ChatApp.constructor | app.py:267-268 | the first run of a browser session over the persisted store: no current session and an empty history, and the module-level cache (app.py:23) empty |
| Wire.HistoryToContents | app.py:160-164 | one content per history message in order, role `user` iff the history role is "user", one text part with the content |
| Wire.TurnParts | app.py:166-206 | the prompt text first, then one file part per handle in order |
| App.AttachmentAcrossRuns | app.py:177-206 | with the run's empty cache a turn sends the documents iff the flag is unset and keeps them iff some file also uploaded; after an uploading turn every later turn sends nothing and does not upload; a turn whose uploads all failed leaves the next turn's decision unchanged; the cache stays consistent with the flags |
| App.ChatApp.AttachDocuments | app.py:166-206 | the handles sent are the policy's (flag unset: cached or freshly uploaded; flag set: cached when warm, none when cold); only an upload changes state, and then exactly the cache entry, the flag and the session's update time |
| App.ChatApp.BuildRequest | app.py:160-208 | history length + 1 contents in order, role mapped; last is `user`: the prompt, then one file part per handle the policy picks from `PDF_FILENAMES`; the cache, flag, clock and sessions change exactly as the attachment step says, and other sessions are untouched |
| Stream.ErrorReplyShape | app.py:257-263 | every error reply is a bracketed `[Lỗi Gemini…]` text |
| Stream.AnySearchSpec | app.py:247 | the search test raises only on a nameless call and otherwise says whether some call is the search tool |
| Stream.SearchQueriesFails | app.py:250-253 | the query loop raises exactly when some call has no name |
| Stream.SearchQueriesAppend | app.py:250-253 | queries come in call order |
| Stream.SearchQueriesBound | app.py:250-253 | at most one query per call |
| Stream.SummarizeSpec | app.py:247-254 | raises iff some call is nameless; otherwise a summary is present iff some call is the search tool, and it reports a search with at least one query |
| Stream.SingleSearchCall | app.py:247-254 | one `google_search` call with `{"query": q}` gives `{search_performed: true, queries: [q]}` |
| App.ChatApp.GenerateResponse | app.py:152-263 | the request is the one request assembly builds, with the same attachment policy and the same effect on cache, flag, clock and sessions; the reply and summary are the stream's outcome; no message is written |
| Stream.ConsumeStream | app.py:217-263 | a raised exception gives its error reply and no summary; otherwise the concatenated text and the derived summary; summary present iff no failure, no nameless call and some search call |
| App.ChatApp.RecordMessage | app.py:360-361 | one message appended to the history and exactly one row saved; only that session's transcript grows and only its update time moves |
| App.PromptThenAttach | app.py:360-366 | saving the prompt first does not change what the attachment policy decides, and the session is updated once by the two steps |
| App.ChatApp.SubmitPrompt | app.py:360-366 | the prompt is recorded, then the request is built from the history before it, with the policy's file parts and its effect on cache, flag and clock |
| App.ChatApp.AnswerPrompt | app.py:356-373 | for any cache: with prompt, session and client, history, table and transcript grow by exactly the user then the assistant message (its summary iff one was returned); the request carries the prior history and the policy's file parts; cache and the turn's session change as the policy says; otherwise nothing changes |
| App.ChatApp.ChatTurn | app.py:356-373 | a run with a prompt: the cache starts empty, so the request carries the documents iff the session's flag was unset; the flag is set iff some file uploaded, the update time becomes the reply time and no other session or issued id changes; history, table and transcript grow by exactly the user then the assistant message; without prompt, session or client only the cache is emptied |
| App.ChatApp.NewChat | app.py:277-281 | a session with the next unused id and an empty transcript, under the smallest free name of the default prefix (every earlier candidate is taken), becomes current with empty history |
| App.ChatApp.SelectSession | app.py:288-296 | selecting another listed session makes it current with its loaded transcript; re-selecting the current one changes nothing else |
| App.ChatApp.DeleteSession | app.py:299-304 | the row goes and its messages stay; the clock and issued ids are unchanged; if it was current, the current id and history are cleared |

## Left out

- Streamlit rendering is not modelled; it is presentation only. This covers widgets, the `st.info`/`st.error`/`st.warning` notices, the typing placeholder and the rename form's `renaming_session_id` state.
- The sidebar's auto-selection (app.py:284-286) changes state and is not modelled. On every run with no current session and at least one stored session, it makes the most recently updated session current and loads its messages as the history. It runs at start-up and after the rerun that follows a delete (app.py:304). So `currentSession == None`, which `App.ChatApp.DeleteSession` leaves when the current session is deleted and `App.ChatApp.constructor` starts with, lasts in the application only while no session is stored. `App.ChatApp.SelectSession` applied to the first entry of `Store.SessionStore.ListSessions` is the step it takes.
- The run boundary is modelled only as each handler emptying the cache at its start. `st.rerun` and the re-execution of the module-level code (app.py:19-23) are otherwise not modelled, and `GEMINI_CLIENT` is taken as present or absent for the whole browser session (`clientReady`).
- SQLite connections, SQL text and the index are not modelled. The tables are in-memory state.
- Store.SessionStore.Rename: the `sqlite3.Error` path that returns False is not modelled; in-memory updates cannot fail. The same holds for Store.SessionStore.Delete.
- Gemini client construction, the `models.list` check, `files.upload`, `generate_content_stream` and the wire objects are foreign calls. Uploads are a per-file outcome input and the stream is a sequence of events. The fixed system-instruction text is not part of `Wire.Request`.
- API-key loading and saving (app.py:104-110) is file and environment I/O.
- `uuid.uuid4` becomes a fresh-number counter. Message ids are never read, so they are omitted.
- `time.time` becomes a monotone clock. Each operation that reads it takes the seconds elapsed, which may be 0.
- JSON is not modelled. A summary is stored as itself, since `json.dumps` of a dict of a bool and strings round-trips. The `json.dumps` TypeError branch (app.py:79) cannot arise for such a dict. Malformed JSON is an opaque stored marker that only rows written by other programs can carry.
- `dict(fc.args)` is taken as already done: argument values are their `str()` text, and a failed conversion is the recorded `{"error": ...}` mapping.
- The nested chunk/candidate/part shape of the stream is flattened into events. A chunk's text comes before its calls.
- The flag lookup's preference for the possibly stale `st.session_state.sessions_list` (app.py:168-175) is not modelled. The model reads the stored flag.
- `str.lower()` is modelled on ASCII letters only. No other code point lower-cases to a letter of `googlesearch` or `google_search`, so the search-tool test is exact.
