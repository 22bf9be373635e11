/** The application state around the store: the document cache
    `UPLOADED_FILES_CACHE`, the current session and its chat history, and the
    handlers that drive a chat turn, create, select, rename and delete
    sessions. Streamlit runs the whole script again on every interaction, so
    each handler is one run: the module-level cache is created empty again
    at its start (app.py:23), while the current session and the history live
    in the browser session's state and carry over. */
module App {
  import opened ChatTypes
  import opened Store
  import opened Documents
  import opened Wire
  import opened Stream
  import Text

  /** The cache holds a non-empty list of handles for `sid`. */
  predicate Warm(cache: map<SessionId, seq<Handle>>, sid: SessionId)
  {
    sid in cache && cache[sid] != []
  }

  /** Every warm cache entry of an existing session has its stored flag set. */
  ghost predicate CacheFlagged(cache: map<SessionId, seq<Handle>>, sessions: map<SessionId, Session>)
  {
    forall sid :: sid in cache && cache[sid] != [] && sid in sessions ==> sessions[sid].pdfsUploaded
  }

  /** A step that keeps every session and every set flag keeps the cache flagged. */
  lemma CacheFlaggedKept(cache: map<SessionId, seq<Handle>>, a: map<SessionId, Session>, b: map<SessionId, Session>)
    requires CacheFlagged(cache, a) && FlagsKept(a, b) && b.Keys == a.Keys
    ensures CacheFlagged(cache, b)
  {
  }

  /** The attachment policy: the handles a turn of `sid` sends, where `got`
      is what uploading the documents gives. A warm cache entry is sent
      again; with a cold cache the documents are uploaded while the stored
      flag is unset, and nothing is sent once it is set. */
  function Attached(cache: map<SessionId, seq<Handle>>, sessions: map<SessionId, Session>,
                    sid: SessionId, got: seq<Handle>): seq<Handle>
  {
    if Warm(cache, sid) then cache[sid] else if StoredFlag(sessions, sid) then [] else got
  }

  /** Whether a turn of `sid` uploads the documents and keeps them: the cache
      is cold, the flag unset, and at least one upload succeeded. */
  predicate UploadsNow(cache: map<SessionId, seq<Handle>>, sessions: map<SessionId, Session>,
                       sid: SessionId, got: seq<Handle>)
  {
    !Warm(cache, sid) && !StoredFlag(sessions, sid) && got != []
  }

  /** The cache after a turn of `sid`: the uploaded handles are remembered. */
  function CacheAfter(cache: map<SessionId, seq<Handle>>, sessions: map<SessionId, Session>,
                      sid: SessionId, got: seq<Handle>): map<SessionId, seq<Handle>>
  {
    if UploadsNow(cache, sessions, sid, got) then cache[sid := got] else cache
  }

  /** The state the attachment step of a turn leaves: when it uploads, the
      cache holds the new handles and the session is flagged and marked as
      updated at the advanced clock; otherwise cache, sessions and clock are
      as they were. */
  ghost predicate AttachEffect(cache0: map<SessionId, seq<Handle>>, sessions0: map<SessionId, Session>, clock0: nat,
                               sid: SessionId, got: seq<Handle>, elapsed: nat,
                               cache1: map<SessionId, seq<Handle>>, sessions1: map<SessionId, Session>, clock1: nat)
  {
    var up := UploadsNow(cache0, sessions0, sid, got);
    && cache1 == CacheAfter(cache0, sessions0, sid, got)
    && clock1 == clock0 + (if up then elapsed else 0)
    && sessions1 == (if up then MarkedUploaded(sessions0, sid, clock1) else sessions0)
  }

  /** The sessions after a turn of `sid` that ends at `now`: only `sid`
      changes, its last update moves to `now`, and its flag is set when the
      turn uploaded. */
  function TurnSessions(sessions: map<SessionId, Session>, sid: SessionId, up: bool, now: nat): map<SessionId, Session>
  {
    if sid in sessions
    then sessions[sid := sessions[sid].(pdfsUploaded := sessions[sid].pdfsUploaded || up, lastUpdatedAt := now)]
    else sessions
  }

  /** The session updates of a turn in terms of `TurnSessions`: saving the
      prompt alone, saving it and then uploading, and saving the reply after
      either. */
  lemma TurnSessionsSteps(sessions: map<SessionId, Session>, sid: SessionId, up: bool, t1: nat, t2: nat)
    ensures Touched(sessions, sid, t1) == TurnSessions(sessions, sid, false, t1)
    ensures MarkedUploaded(Touched(sessions, sid, t1), sid, t2) == TurnSessions(sessions, sid, true, t2)
    ensures Touched(TurnSessions(sessions, sid, up, t1), sid, t2) == TurnSessions(sessions, sid, up, t2)
  {
  }

  /** Saving the prompt at `clock1` and then taking the attachment step
      amounts to the attachment policy applied to the state before the
      save, with the session updated once. */
  lemma PromptThenAttach(cache0: map<SessionId, seq<Handle>>, sessions0: map<SessionId, Session>, clock0: nat,
                         sid: SessionId, got: seq<Handle>, tUser: nat, tUpload: nat,
                         sessions1: map<SessionId, Session>, clock1: nat,
                         cache2: map<SessionId, seq<Handle>>, sessions2: map<SessionId, Session>, clock2: nat)
    requires clock1 == clock0 + tUser && sessions1 == Touched(sessions0, sid, clock1)
    requires AttachEffect(cache0, sessions1, clock1, sid, got, tUpload, cache2, sessions2, clock2)
    ensures var up := UploadsNow(cache0, sessions0, sid, got);
            && Attached(cache0, sessions1, sid, got) == Attached(cache0, sessions0, sid, got)
            && cache2 == CacheAfter(cache0, sessions0, sid, got)
            && clock2 == clock0 + tUser + (if up then tUpload else 0)
            && sessions2 == TurnSessions(sessions0, sid, up, clock2)
  {
    PolicyIgnoresTouch(cache0, sessions0, sid, got, clock1);
    TurnSessionsSteps(sessions0, sid, false, clock1, clock2);
  }

  /** The attachment policy across script runs. A run starts with an empty
      cache, so a turn sends the documents exactly when the stored flag is
      unset, and it keeps them exactly when some file also uploaded. After
      such a turn the flag is set, and every later turn sends nothing; a turn
      whose uploads all failed leaves the flag unset, so the next turn tries
      again. The turn leaves the cache consistent with the stored flags. */
  lemma AttachmentAcrossRuns(sessions: map<SessionId, Session>, sid: SessionId,
                             got: seq<Handle>, later: seq<Handle>, now: nat)
    ensures Attached(map[], sessions, sid, got) == (if StoredFlag(sessions, sid) then [] else got)
    ensures UploadsNow(map[], sessions, sid, got) <==> !StoredFlag(sessions, sid) && got != []
    ensures CacheAfter(map[], sessions, sid, got)
            == (if UploadsNow(map[], sessions, sid, got) then map[sid := got] else map[])
    ensures UploadsNow(map[], sessions, sid, got) && sid in sessions ==>
              var sessions1 := TurnSessions(sessions, sid, true, now);
              Attached(map[], sessions1, sid, later) == [] && !UploadsNow(map[], sessions1, sid, later)
    ensures !UploadsNow(map[], sessions, sid, got) ==>
              Attached(map[], TurnSessions(sessions, sid, false, now), sid, later)
              == Attached(map[], sessions, sid, later)
    ensures CacheFlagged(CacheAfter(map[], sessions, sid, got),
                         TurnSessions(sessions, sid, UploadsNow(map[], sessions, sid, got), now))
  {
  }

  /** Saving a message does not change what the attachment policy decides. */
  lemma PolicyIgnoresTouch(cache: map<SessionId, seq<Handle>>, sessions: map<SessionId, Session>,
                           sid: SessionId, got: seq<Handle>, now: nat)
    ensures Attached(cache, Touched(sessions, sid, now), sid, got) == Attached(cache, sessions, sid, got)
    ensures UploadsNow(cache, Touched(sessions, sid, now), sid, got) == UploadsNow(cache, sessions, sid, got)
    ensures CacheAfter(cache, Touched(sessions, sid, now), sid, got) == CacheAfter(cache, sessions, sid, got)
  {
  }

  class ChatApp {
    /** The database. */
    const store: SessionStore
    /** `UPLOADED_FILES_CACHE`: session id to uploaded handles. Every run of
        the script creates it empty again, so it holds only what the current
        run uploaded. */
    var cache: map<SessionId, seq<Handle>>
    /** `st.session_state.current_session_id`. */
    var currentSession: Option<SessionId>
    /** `st.session_state.chat_history`. */
    var chatHistory: seq<ChatMessage>
    /** Whether a model client exists (`GEMINI_CLIENT` is set). */
    var clientReady: bool

    /** The store is consistent, and a warm cache entry of an existing
        session implies its stored flag is set. */
    ghost predicate Consistent()
      reads this, store
    {
      && store.Valid()
      && CacheFlagged(cache, store.sessions)
    }

    /** Between runs: consistent, and the current session, if any, has an
        id the store issued. */
    ghost predicate Valid()
      reads this, store
    {
      && Consistent()
      && (currentSession.Some? ==> currentSession.value < store.nextSessionId)
    }

    /** The first run of a new browser session over an existing database
        (app.py:267-268): no session is current yet and the history is
        empty; the cache, as at the start of every run, is empty. */
    constructor (db: SessionStore, clientReady: bool)
      requires db.Valid()
      ensures Valid()
      ensures store == db && cache == map[] && currentSession == None && chatHistory == []
      ensures this.clientReady == clientReady
    {
      store := db;
      cache := map[];
      currentSession := None;
      chatHistory := [];
      this.clientReady := clientReady;
    }

    /** `upload_files_to_gemini`. On a warm cache it returns the cached
        handles and changes nothing. Otherwise it walks `filenames` in order,
        keeps the handle of every file that exists and uploads, and only when
        it kept at least one does it fill the cache and set the stored flag. */
    method UploadFiles(filenames: seq<string>, sid: SessionId, attempt: string -> FileAttempt, elapsed: nat)
      returns (handles: seq<Handle>)
      requires Consistent()
      modifies this, store
      ensures Consistent()
      ensures old(Warm(cache, sid)) ==>
                handles == old(cache)[sid] && cache == old(cache)
                && store.sessions == old(store.sessions) && store.clock == old(store.clock)
      ensures !old(Warm(cache, sid)) ==> handles == Collected(filenames, attempt)
      ensures !old(Warm(cache, sid)) && handles != [] ==>
                cache == old(cache)[sid := handles]
                && store.clock == old(store.clock) + elapsed
                && store.sessions == MarkedUploaded(old(store.sessions), sid, store.clock)
      ensures !old(Warm(cache, sid)) && handles == [] ==>
                cache == old(cache) && store.sessions == old(store.sessions) && store.clock == old(store.clock)
      ensures store.sessions.Keys == old(store.sessions.Keys)
      ensures store.messages == old(store.messages) && store.nextSessionId == old(store.nextSessionId)
      ensures FlagsKept(old(store.sessions), store.sessions)
      ensures currentSession == old(currentSession) && chatHistory == old(chatHistory)
      ensures clientReady == old(clientReady)
    {
      if sid in cache && cache[sid] != [] {
        handles := cache[sid];
        return;
      }
      handles := [];
      for i := 0 to |filenames|
        invariant handles == Collected(filenames[..i], attempt)
      {
        assert filenames[..i + 1][..i] == filenames[..i];
        match attempt(filenames[i]) {
          case Missing =>
          case UploadFailed(_) =>
          case Uploaded(h) =>
            handles := handles + [h];
        }
      }
      assert filenames[..|filenames|] == filenames;
      if handles != [] {
        cache := cache[sid := handles];
        store.SetPdfsUploaded(sid, elapsed);
      }
    }

    /** The attachment decision in `generate_gemini_response_stream`: the
        stored flag is looked up; while it is unset the cached handles are
        reused or the configured documents uploaded through `UploadFiles`,
        and once it is set the cached handles are sent again when the cache
        is warm and nothing is sent when it is cold. */
    method AttachDocuments(sid: SessionId, attempt: string -> FileAttempt, elapsed: nat)
      returns (handles: seq<Handle>)
      requires Consistent()
      modifies this, store
      ensures Consistent()
      ensures handles == Attached(old(cache), old(store.sessions), sid, Collected(PdfFilenames, attempt))
      ensures AttachEffect(old(cache), old(store.sessions), old(store.clock), sid, Collected(PdfFilenames, attempt), elapsed,
                           cache, store.sessions, store.clock)
      ensures store.sessions.Keys == old(store.sessions.Keys)
      ensures store.messages == old(store.messages) && store.nextSessionId == old(store.nextSessionId)
      ensures FlagsKept(old(store.sessions), store.sessions)
      ensures currentSession == old(currentSession) && chatHistory == old(chatHistory)
      ensures clientReady == old(clientReady)
    {
      var flag := sid in store.sessions && store.sessions[sid].pdfsUploaded;
      if !flag {
        if sid !in cache || cache[sid] == [] {
          handles := UploadFiles(PdfFilenames, sid, attempt, elapsed);
        } else {
          handles := cache[sid];
        }
      } else if sid in cache && cache[sid] != [] {
        handles := cache[sid];
      } else {
        handles := [];
      }
    }

    /** Request assembly in `generate_gemini_response_stream`: the history
        as content blocks, then one user block that starts with the prompt
        and carries the file parts the attachment decision picks. */
    method BuildRequest(prompt: string, sid: SessionId, history: seq<ChatMessage>,
                        attempt: string -> FileAttempt, elapsed: nat)
      returns (request: Request)
      requires Consistent()
      modifies this, store
      ensures Consistent()
      ensures Carries(request, history, prompt)
      ensures request.contents[|history|].parts
                == [TextPart(prompt)] + FileParts(Attached(old(cache), old(store.sessions), sid, Collected(PdfFilenames, attempt)))
      ensures AttachEffect(old(cache), old(store.sessions), old(store.clock), sid, Collected(PdfFilenames, attempt), elapsed,
                           cache, store.sessions, store.clock)
      ensures store.sessions.Keys == old(store.sessions.Keys)
      ensures store.messages == old(store.messages) && store.nextSessionId == old(store.nextSessionId)
      ensures FlagsKept(old(store.sessions), store.sessions)
      ensures currentSession == old(currentSession) && chatHistory == old(chatHistory)
      ensures clientReady == old(clientReady)
    {
      var contents := HistoryToContents(history);
      var handles := AttachDocuments(sid, attempt, elapsed);
      var parts := TurnParts(prompt, handles);
      assert parts == [TextPart(prompt)] + FileParts(handles);
      request := Request(ModelId, contents + [Content(UserRole, parts)], [GoogleSearchTool], ResponseMimeType);
      assert forall i :: 0 <= i < |history| ==> request.contents[i] == contents[i];
    }

    /** `generate_gemini_response_stream`: builds the request for `prompt`
        after `history` and consumes the stream of `events` it answers with,
        giving the reply text and the grounding summary, if any. */
    method GenerateResponse(prompt: string, sid: SessionId, history: seq<ChatMessage>,
                            attempt: string -> FileAttempt, elapsed: nat, events: seq<StreamEvent>)
      returns (request: Request, reply: string, summary: Option<GroundingSummary>)
      requires Consistent()
      modifies this, store
      ensures Consistent()
      ensures Carries(request, history, prompt)
      ensures request.contents[|history|].parts
                == [TextPart(prompt)] + FileParts(Attached(old(cache), old(store.sessions), sid, Collected(PdfFilenames, attempt)))
      ensures AttachEffect(old(cache), old(store.sessions), old(store.clock), sid, Collected(PdfFilenames, attempt), elapsed,
                           cache, store.sessions, store.clock)
      ensures (reply, summary) == StreamOutcome(events)
      ensures store.sessions.Keys == old(store.sessions.Keys)
      ensures store.messages == old(store.messages) && store.nextSessionId == old(store.nextSessionId)
      ensures FlagsKept(old(store.sessions), store.sessions)
      ensures currentSession == old(currentSession) && chatHistory == old(chatHistory)
      ensures clientReady == old(clientReady)
    {
      request := BuildRequest(prompt, sid, history, attempt, elapsed);
      reply, summary := ConsumeStream(events);
    }

    /** Appending a message to the chat history and saving it, as the
        chat-input handler does for the prompt and again for the reply. */
    method RecordMessage(sid: SessionId, role: string, content: string,
                         summary: Option<GroundingSummary>, elapsed: nat)
      requires Consistent() && sid < store.nextSessionId
      modifies this, store
      ensures Consistent()
      ensures chatHistory == old(chatHistory) + [ChatMessage(role, content, MetadataFor(summary))]
      ensures store.clock == old(store.clock) + elapsed && store.nextSessionId == old(store.nextSessionId)
      ensures store.messages == old(store.messages) + [MessageRow(sid, role, content, store.clock, StoredOf(summary))]
      ensures store.sessions == Touched(old(store.sessions), sid, store.clock)
      ensures store.sessions.Keys == old(store.sessions.Keys)
      ensures FlagsKept(old(store.sessions), store.sessions)
      ensures Transcript(store.messages, sid)
                == Transcript(old(store.messages), sid) + [ChatMessage(role, content, MetadataFor(summary))]
      ensures forall other :: other != sid ==> Transcript(store.messages, other) == Transcript(old(store.messages), other)
      ensures cache == old(cache) && currentSession == old(currentSession) && clientReady == old(clientReady)
    {
      chatHistory := chatHistory + [ChatMessage(role, content, MetadataFor(summary))];
      store.SaveMessage(sid, role, content, summary, elapsed);
      CacheFlaggedKept(cache, old(store.sessions), store.sessions);
    }

    /** The first half of a chat turn: the prompt is recorded, then the
        response is generated from the history before it. */
    method SubmitPrompt(prompt: string, sid: SessionId, attempt: string -> FileAttempt, events: seq<StreamEvent>,
                        tUser: nat, tUpload: nat)
      returns (request: Request, reply: string, summary: Option<GroundingSummary>)
      requires Consistent() && sid < store.nextSessionId
      modifies this, store
      ensures Consistent()
      ensures store.nextSessionId == old(store.nextSessionId)
      ensures Carries(request, old(chatHistory), prompt)
      ensures (reply, summary) == StreamOutcome(events)
      ensures var got := Collected(PdfFilenames, attempt);
              var up := UploadsNow(old(cache), old(store.sessions), sid, got);
              && request.contents[|old(chatHistory)|].parts
                   == [TextPart(prompt)] + FileParts(Attached(old(cache), old(store.sessions), sid, got))
              && cache == CacheAfter(old(cache), old(store.sessions), sid, got)
              && store.clock == old(store.clock) + tUser + (if up then tUpload else 0)
              && store.sessions == TurnSessions(old(store.sessions), sid, up, store.clock)
      ensures chatHistory == old(chatHistory) + [ChatMessage("user", prompt, NoMetadata)]
      ensures store.messages == old(store.messages) + [MessageRow(sid, "user", prompt, old(store.clock) + tUser, StoredOf(None))]
      ensures Transcript(store.messages, sid) == Transcript(old(store.messages), sid) + [ChatMessage("user", prompt, NoMetadata)]
      ensures forall other :: other != sid ==> Transcript(store.messages, other) == Transcript(old(store.messages), other)
      ensures store.sessions.Keys == old(store.sessions.Keys)
      ensures FlagsKept(old(store.sessions), store.sessions)
      ensures currentSession == old(currentSession) && clientReady == old(clientReady)
    {
      ghost var cache0, sessions0, clock0 := cache, store.sessions, store.clock;
      RecordMessage(sid, "user", prompt, None, tUser);
      ghost var sessions1, clock1 := store.sessions, store.clock;
      var prior := chatHistory[..|chatHistory| - 1];
      assert prior == old(chatHistory);
      request, reply, summary := GenerateResponse(prompt, sid, prior, attempt, tUpload, events);
      PromptThenAttach(cache0, sessions0, clock0, sid, Collected(PdfFilenames, attempt), tUser, tUpload,
                       sessions1, clock1, cache, store.sessions, store.clock);
      FlagsKeptChain(sessions0, sessions1, store.sessions);
    }

    /** The body of the chat-input handler. With a non-empty prompt, a
        current session and a client, it appends and saves the user message,
        generates the response from the history before that message, and
        appends and saves the assistant message with the summary, if any.
        Otherwise nothing changes. */
    method AnswerPrompt(prompt: string, attempt: string -> FileAttempt, events: seq<StreamEvent>,
                    tUser: nat, tUpload: nat, tReply: nat)
      returns (request: Option<Request>)
      requires Valid()
      modifies this, store
      ensures Valid()
      ensures prompt == "" || old(currentSession).None? || !clientReady ==>
                request.None? && cache == old(cache) && chatHistory == old(chatHistory)
                && store.sessions == old(store.sessions) && store.messages == old(store.messages)
                && store.clock == old(store.clock)
      ensures prompt != "" && old(currentSession).Some? && clientReady ==>
                var sid := old(currentSession).value;
                var (reply, summary) := StreamOutcome(events);
                var got := Collected(PdfFilenames, attempt);
                var up := UploadsNow(old(cache), old(store.sessions), sid, got);
                && request.Some?
                && Carries(request.value, old(chatHistory), prompt)
                && request.value.contents[|old(chatHistory)|].parts
                     == [TextPart(prompt)] + FileParts(Attached(old(cache), old(store.sessions), sid, got))
                && cache == CacheAfter(old(cache), old(store.sessions), sid, got)
                && store.clock == old(store.clock) + tUser + (if up then tUpload else 0) + tReply
                && store.sessions == TurnSessions(old(store.sessions), sid, up, store.clock)
                && chatHistory == old(chatHistory) + [ChatMessage("user", prompt, NoMetadata)]
                     + [ChatMessage("assistant", reply, MetadataFor(summary))]
                && store.messages == old(store.messages)
                     + [MessageRow(sid, "user", prompt, old(store.clock) + tUser, StoredOf(None))]
                     + [MessageRow(sid, "assistant", reply, store.clock, StoredOf(summary))]
                && Transcript(store.messages, sid) == Transcript(old(store.messages), sid)
                     + [ChatMessage("user", prompt, NoMetadata)] + [ChatMessage("assistant", reply, MetadataFor(summary))]
                && (forall other :: other != sid ==>
                      Transcript(store.messages, other) == Transcript(old(store.messages), other))
      ensures store.sessions.Keys == old(store.sessions.Keys) && store.nextSessionId == old(store.nextSessionId)
      ensures FlagsKept(old(store.sessions), store.sessions)
      ensures currentSession == old(currentSession) && clientReady == old(clientReady)
    {
      if prompt == "" || currentSession.None? || !clientReady {
        request := None;
        return;
      }
      var sid := currentSession.value;
      ghost var sessions0 := store.sessions;
      ghost var got := Collected(PdfFilenames, attempt);
      ghost var up := UploadsNow(cache, sessions0, sid, got);
      var req, reply, summary := SubmitPrompt(prompt, sid, attempt, events, tUser, tUpload);
      ghost var sessions1, clock1 := store.sessions, store.clock;
      RecordMessage(sid, "assistant", reply, summary, tReply);
      request := Some(req);
      TurnSessionsSteps(sessions0, sid, up, clock1, store.clock);
      FlagsKeptChain(sessions0, sessions1, store.sessions);
    }

    /** The chat-input handler, in the run a submitted prompt starts: the
        run's cache starts empty. With a non-empty prompt, a current session
        and a client, it appends and saves the user message, generates the
        response from the history before that message, and appends and
        saves the assistant message with the summary, if any. Otherwise
        nothing else changes. */
    method ChatTurn(prompt: string, attempt: string -> FileAttempt, events: seq<StreamEvent>,
                    tUser: nat, tUpload: nat, tReply: nat)
      returns (request: Option<Request>)
      requires Valid()
      modifies this, store
      ensures Valid()
      ensures prompt == "" || old(currentSession).None? || !clientReady ==>
                request.None? && cache == map[] && chatHistory == old(chatHistory)
                && store.sessions == old(store.sessions) && store.messages == old(store.messages)
                && store.clock == old(store.clock)
      ensures prompt != "" && old(currentSession).Some? && clientReady ==>
                var sid := old(currentSession).value;
                var (reply, summary) := StreamOutcome(events);
                var got := Collected(PdfFilenames, attempt);
                var flagged := StoredFlag(old(store.sessions), sid);
                var up := !flagged && got != [];
                && request.Some?
                && Carries(request.value, old(chatHistory), prompt)
                && request.value.contents[|old(chatHistory)|].parts
                     == [TextPart(prompt)] + FileParts(if flagged then [] else got)
                && cache == (if up then map[sid := got] else map[])
                && store.clock == old(store.clock) + tUser + (if up then tUpload else 0) + tReply
                && store.sessions == TurnSessions(old(store.sessions), sid, up, store.clock)
                && chatHistory == old(chatHistory) + [ChatMessage("user", prompt, NoMetadata)]
                     + [ChatMessage("assistant", reply, MetadataFor(summary))]
                && store.messages == old(store.messages)
                     + [MessageRow(sid, "user", prompt, old(store.clock) + tUser, StoredOf(None))]
                     + [MessageRow(sid, "assistant", reply, store.clock, StoredOf(summary))]
                && Transcript(store.messages, sid) == Transcript(old(store.messages), sid)
                     + [ChatMessage("user", prompt, NoMetadata)] + [ChatMessage("assistant", reply, MetadataFor(summary))]
                && (forall other :: other != sid ==>
                      Transcript(store.messages, other) == Transcript(old(store.messages), other))
      ensures store.sessions.Keys == old(store.sessions.Keys) && store.nextSessionId == old(store.nextSessionId)
      ensures FlagsKept(old(store.sessions), store.sessions)
      ensures currentSession == old(currentSession) && clientReady == old(clientReady)
    {
      cache := map[];
      ghost var sessions0 := store.sessions;
      ghost var got := Collected(PdfFilenames, attempt);
      request := AnswerPrompt(prompt, attempt, events, tUser, tUpload, tReply);
      if request.Some? {
        AttachmentAcrossRuns(sessions0, currentSession.value, got, got, 0);
      }
    }

    /** The "new chat" button: a session under the first free default name,
        with the next id, becomes current with an empty history. The cache
        entry it deletes is never there, since the run's cache is empty. */
    method NewChat(elapsed: nat) returns (id: SessionId, name: string, ghost probes: nat)
      requires Valid()
      modifies this, store
      ensures Valid()
      ensures id == old(store.nextSessionId) && store.nextSessionId == old(store.nextSessionId) + 1
      ensures id !in old(store.sessions) && name !in old(store.Names())
      ensures name == Text.SessionName(DefaultSessionPrefix, probes)
      ensures forall k :: 0 <= k < probes ==> Text.SessionName(DefaultSessionPrefix, k) in old(store.Names())
      ensures DefaultSessionPrefix !in old(store.Names()) ==> name == DefaultSessionPrefix
      ensures store.clock == old(store.clock) + elapsed
      ensures store.sessions == old(store.sessions)[id := Session(name, store.clock, store.clock, false)]
      ensures store.messages == old(store.messages) && Transcript(store.messages, id) == []
      ensures currentSession == Some(id) && chatHistory == []
      ensures cache == map[] && clientReady == old(clientReady)
    {
      cache := map[];
      id, name, probes := store.CreateSession(DefaultSessionPrefix, elapsed);
      currentSession := Some(id);
      chatHistory := [];
      cache := cache - {id};
    }

    /** Selecting a listed session in the sidebar: a session other than the
        current one becomes current, with its messages loaded as the
        history. */
    method SelectSession(sid: SessionId)
      requires Valid() && sid in store.sessions
      modifies this
      ensures Valid()
      ensures old(currentSession) == Some(sid) ==>
                currentSession == old(currentSession) && chatHistory == old(chatHistory)
      ensures old(currentSession) != Some(sid) ==>
                currentSession == Some(sid) && chatHistory == Transcript(store.messages, sid)
      ensures cache == map[] && clientReady == old(clientReady)
    {
      cache := map[];
      if currentSession != Some(sid) {
        currentSession := Some(sid);
        chatHistory := store.LoadMessages(sid);
      }
    }

    /** The rename form: the input is stripped; a blank name is refused and
        changes nothing, any other name is written. */
    method RenameSession(sid: SessionId, input: string, elapsed: nat) returns (accepted: bool)
      requires Valid()
      modifies this, store
      ensures Valid()
      ensures accepted <==> exists i :: 0 <= i < |input| && !Text.IsSpace(input[i])
      ensures store.clock == old(store.clock) + (if accepted then elapsed else 0)
      ensures !accepted ==> store.sessions == old(store.sessions)
      ensures accepted ==>
                store.sessions == if sid in old(store.sessions)
                                  then old(store.sessions)[sid := old(store.sessions)[sid].(name := Text.Strip(input), lastUpdatedAt := store.clock)]
                                  else old(store.sessions)
      ensures store.messages == old(store.messages) && store.nextSessionId == old(store.nextSessionId)
      ensures FlagsKept(old(store.sessions), store.sessions)
      ensures cache == map[] && currentSession == old(currentSession) && chatHistory == old(chatHistory)
      ensures clientReady == old(clientReady)
    {
      cache := map[];
      var newName := Text.Strip(input);
      Text.StripEmptyIffBlank(input);
      accepted := newName != [];
      if accepted {
        store.Rename(sid, newName, elapsed);
      }
    }

    /** The delete button: the session row goes (its messages stay), and if
        it was current the current session and history are cleared. The
        cache entry it deletes is never there, since the run's cache is
        empty. */
    method DeleteSession(sid: SessionId)
      requires Valid()
      modifies this, store
      ensures Valid()
      ensures store.sessions == old(store.sessions) - {sid}
      ensures store.messages == old(store.messages)
      ensures store.clock == old(store.clock) && store.nextSessionId == old(store.nextSessionId)
      ensures cache == map[]
      ensures old(currentSession) == Some(sid) ==> currentSession.None? && chatHistory == []
      ensures old(currentSession) != Some(sid) ==>
                currentSession == old(currentSession) && chatHistory == old(chatHistory)
      ensures clientReady == old(clientReady)
    {
      cache := map[];
      store.Delete(sid);
      if currentSession == Some(sid) {
        currentSession := None;
        chatHistory := [];
      }
      cache := cache - {sid};
    }
  }
}
