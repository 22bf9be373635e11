/** The persistent session and message store (`create_new_session_db` to
    `delete_session_db`), with the SQLite tables held as in-memory state. */
module Store {
  import opened ChatTypes
  import Text

  /** The name prefix the "new chat" button passes (its default argument). */
  const DefaultSessionPrefix: string := "Trò chuyện mới"

  /** Message timestamps never decrease along the table's insertion order. */
  ghost predicate TimestampsOrdered(rows: seq<MessageRow>)
  {
    forall i, j :: 0 <= i < j < |rows| ==> rows[i].timestamp <= rows[j].timestamp
  }

  /** The table's timestamps never decrease along insertion order, none is
      later than `bound`, and every row belongs to a session id below
      `idBound`, that is, one already issued. Stated one row at a time, from
      the last. */
  predicate RowsWithin(rows: seq<MessageRow>, bound: nat, idBound: nat)
  {
    rows == []
    || (var last := rows[|rows| - 1];
        last.timestamp <= bound && last.sessionId < idBound && RowsWithin(rows[..|rows| - 1], last.timestamp, idBound))
  }

  /** `RowsWithin` says exactly that the timestamps are ordered and bounded
      and the session ids issued. */
  lemma {:induction false} RowsWithinMeaning(rows: seq<MessageRow>, bound: nat, idBound: nat)
    ensures RowsWithin(rows, bound, idBound) <==>
              && TimestampsOrdered(rows)
              && (forall i :: 0 <= i < |rows| ==> rows[i].timestamp <= bound)
              && (forall i :: 0 <= i < |rows| ==> rows[i].sessionId < idBound)
  {
    if rows != [] {
      var init, last := rows[..|rows| - 1], rows[|rows| - 1];
      RowsWithinMeaning(init, last.timestamp, idBound);
      assert forall i :: 0 <= i < |init| ==> init[i] == rows[i];
    }
  }

  /** A later clock and a larger id bound keep the table within bounds. */
  lemma {:induction false} RowsWithinLater(rows: seq<MessageRow>, bound: nat, idBound: nat, bound': nat, idBound': nat)
    requires RowsWithin(rows, bound, idBound) && bound <= bound' && idBound <= idBound'
    ensures RowsWithin(rows, bound', idBound')
  {
    if rows != [] {
      RowsWithinLater(rows[..|rows| - 1], rows[|rows| - 1].timestamp, idBound, rows[|rows| - 1].timestamp, idBound');
    }
  }

  /** The rows of session `sid`, in table order. */
  function SessionRows(rows: seq<MessageRow>, sid: SessionId): seq<MessageRow>
  {
    if rows == [] then []
    else
      var last := rows[|rows| - 1];
      SessionRows(rows[..|rows| - 1], sid) + (if last.sessionId == sid then [last] else [])
  }

  /** A row as `load_messages_db` returns it. */
  function ToChat(row: MessageRow): ChatMessage
  {
    ChatMessage(row.role, row.content, MetadataOf(row.grounding))
  }

  /** What loading session `sid` yields from table `rows`. */
  function Transcript(rows: seq<MessageRow>, sid: SessionId): seq<ChatMessage>
  {
    var own := SessionRows(rows, sid);
    seq(|own|, i requires 0 <= i < |own| => ToChat(own[i]))
  }

  /** Loading selects exactly the rows of the session asked for. */
  lemma {:induction false} SessionRowsMembers(rows: seq<MessageRow>, sid: SessionId)
    ensures forall r :: r in SessionRows(rows, sid) <==> r in rows && r.sessionId == sid
  {
    if rows != [] {
      var init := rows[..|rows| - 1];
      SessionRowsMembers(init, sid);
      assert rows == init + [rows[|rows| - 1]];
    }
  }

  /** No row belongs to an id not yet issued, so such a session's
      transcript is empty. */
  lemma FreshIdNoTranscript(rows: seq<MessageRow>, bound: nat, sid: SessionId)
    requires RowsWithin(rows, bound, sid)
    ensures Transcript(rows, sid) == []
  {
    RowsWithinMeaning(rows, bound, sid);
    SessionRowsMembers(rows, sid);
  }

  /** Selecting a session's rows keeps their relative order. */
  lemma {:induction false} SessionRowsOrdered(rows: seq<MessageRow>, sid: SessionId)
    requires TimestampsOrdered(rows)
    ensures TimestampsOrdered(SessionRows(rows, sid))
  {
    if rows != [] {
      var init := rows[..|rows| - 1];
      assert TimestampsOrdered(init);
      SessionRowsOrdered(init, sid);
      SessionRowsMembers(init, sid);
      var own := SessionRows(init, sid);
      var last := rows[|rows| - 1];
      forall r | r in own ensures r.timestamp <= last.timestamp {
        var i :| 0 <= i < |init| && init[i] == r;
        assert rows[i] == r;
      }
      var res := SessionRows(rows, sid);
      forall i, j | 0 <= i < j < |res| ensures res[i].timestamp <= res[j].timestamp {
        if j == |own| {
          assert res[i] == own[i];
          assert res[i] in own;
        } else {
          assert res[i] == own[i] && res[j] == own[j];
        }
      }
    }
  }

  /** Appending a row of another session leaves a session's transcript alone;
      appending one of its own extends it by exactly that message. */
  lemma TranscriptAppend(rows: seq<MessageRow>, row: MessageRow, sid: SessionId)
    ensures row.sessionId == sid ==> Transcript(rows + [row], sid) == Transcript(rows, sid) + [ToChat(row)]
    ensures row.sessionId != sid ==> Transcript(rows + [row], sid) == Transcript(rows, sid)
  {
    assert (rows + [row])[..|rows|] == rows;
  }

  /** The ids listed in `list`. */
  function IdsOf(list: seq<SessionInfo>): set<SessionId>
  {
    if list == [] then {} else IdsOf(list[..|list| - 1]) + {list[|list| - 1].id}
  }

  /** An id is listed exactly when some entry carries it. */
  lemma {:induction false} IdsOfMembers(list: seq<SessionInfo>)
    ensures forall id :: id in IdsOf(list) <==> exists i :: 0 <= i < |list| && list[i].id == id
  {
    if list != [] {
      var init := list[..|list| - 1];
      IdsOfMembers(init);
      assert forall i :: 0 <= i < |init| ==> list[i] == init[i];
    }
  }

  /** A subset is no larger than its superset. */
  lemma SubsetCardinality<T>(a: set<T>, b: set<T>)
    requires a <= b
    ensures |a| <= |b|
  {
    if a != {} {
      var x :| x in a;
      SubsetCardinality(a - {x}, b - {x});
    }
  }

  /** The stored `pdfs_uploaded` flag of `sid`; false for an unknown id. */
  function StoredFlag(sessions: map<SessionId, Session>, sid: SessionId): bool
  {
    sid in sessions && sessions[sid].pdfsUploaded
  }

  /** The sessions after `sid` is marked as updated at `now`; an unknown id
      changes nothing. */
  function Touched(sessions: map<SessionId, Session>, sid: SessionId, now: nat): (after: map<SessionId, Session>)
    ensures after.Keys == sessions.Keys
    ensures forall id :: id in sessions && id != sid ==> after[id] == sessions[id]
    ensures sid in sessions ==> after[sid] == sessions[sid].(lastUpdatedAt := now)
  {
    if sid in sessions then sessions[sid := sessions[sid].(lastUpdatedAt := now)] else sessions
  }

  /** The sessions after `sid` has its documents marked as uploaded at `now`;
      an unknown id changes nothing. */
  function MarkedUploaded(sessions: map<SessionId, Session>, sid: SessionId, now: nat): (after: map<SessionId, Session>)
    ensures after.Keys == sessions.Keys
    ensures forall id :: id in sessions && id != sid ==> after[id] == sessions[id]
    ensures sid in sessions ==> after[sid] == sessions[sid].(pdfsUploaded := true, lastUpdatedAt := now)
  {
    if sid in sessions then sessions[sid := sessions[sid].(pdfsUploaded := true, lastUpdatedAt := now)] else sessions
  }

  /** Flags that were set stay set: `pdfs_uploaded` is never written back to 0. */
  ghost predicate FlagsKept(before: map<SessionId, Session>, after: map<SessionId, Session>)
  {
    forall id :: id in before && id in after && before[id].pdfsUploaded ==> after[id].pdfsUploaded
  }

  /** Flags kept over two steps are kept over both, as long as the sessions
      present at both ends were present in between. */
  lemma FlagsKeptChain(a: map<SessionId, Session>, b: map<SessionId, Session>, c: map<SessionId, Session>)
    requires FlagsKept(a, b) && FlagsKept(b, c)
    requires b.Keys == a.Keys || b.Keys == c.Keys
    ensures FlagsKept(a, c)
  {
  }

  /** The list entry of session `id`. */
  function EntryOf(sessions: map<SessionId, Session>, id: SessionId): SessionInfo
    requires id in sessions
  {
    SessionInfo(id, sessions[id].name, sessions[id].lastUpdatedAt, sessions[id].pdfsUploaded)
  }

  /** Some session in a non-empty set was updated no earlier than the rest. */
  lemma {:induction false} MostRecentExists(sessions: map<SessionId, Session>, ids: set<SessionId>)
    requires ids != {} && ids <= sessions.Keys
    ensures exists id :: id in ids && forall other :: other in ids ==>
              sessions[other].lastUpdatedAt <= sessions[id].lastUpdatedAt
  {
    var x :| x in ids;
    if ids != {x} {
      MostRecentExists(sessions, ids - {x});
      var y :| y in ids - {x} && forall other :: other in ids - {x} ==>
                 sessions[other].lastUpdatedAt <= sessions[y].lastUpdatedAt;
      if sessions[x].lastUpdatedAt <= sessions[y].lastUpdatedAt {
        assert forall other :: other in ids ==>
                 sessions[other].lastUpdatedAt <= sessions[y].lastUpdatedAt;
      } else {
        assert forall other :: other in ids ==>
                 sessions[other].lastUpdatedAt <= sessions[x].lastUpdatedAt;
      }
    }
  }

  /** The state of the listing after some entries: `list` holds the entries
      already emitted, most recent first, and `remaining` the sessions not yet
      listed, none of them more recent than an emitted one. */
  ghost predicate Listing(sessions: map<SessionId, Session>, list: seq<SessionInfo>, remaining: set<SessionId>)
  {
    && remaining <= sessions.Keys
    && IdsOf(list) + remaining == sessions.Keys
    && |list| + |remaining| == |sessions.Keys|
    && (forall i :: 0 <= i < |list| ==>
          list[i].id in sessions && list[i] == EntryOf(sessions, list[i].id) && list[i].id !in remaining)
    && (forall i, j :: 0 <= i < j < |list| ==> list[i].id != list[j].id)
    && (forall i, j :: 0 <= i < j < |list| ==> list[i].lastUpdatedAt >= list[j].lastUpdatedAt)
    && (forall i, id :: 0 <= i < |list| && id in remaining ==>
          sessions[id].lastUpdatedAt <= list[i].lastUpdatedAt)
  }

  /** Emitting the most recent remaining session keeps the listing sorted,
      complete and free of repeats. */
  lemma ListingStep(sessions: map<SessionId, Session>, list: seq<SessionInfo>,
                    remaining: set<SessionId>, id: SessionId)
    requires Listing(sessions, list, remaining)
    requires id in remaining
    requires forall other :: other in remaining ==>
               sessions[other].lastUpdatedAt <= sessions[id].lastUpdatedAt
    ensures Listing(sessions, list + [EntryOf(sessions, id)], remaining - {id})
  {
    var next := list + [EntryOf(sessions, id)];
    assert next[..|list|] == list;
    assert |remaining - {id}| == |remaining| - 1;
  }

  class SessionStore {
    /** The `sessions` table, keyed by id. */
    var sessions: map<SessionId, Session>
    /** The `messages` table in insertion order. */
    var messages: seq<MessageRow>
    /** The last reading of the wall clock, in whole seconds. */
    var clock: nat
    /** The next fresh session id. */
    var nextSessionId: nat

    ghost predicate Valid()
      reads this
    {
      && (forall id :: id in sessions ==> id < nextSessionId)
      && (forall id :: id in sessions ==>
            sessions[id].createdAt <= sessions[id].lastUpdatedAt <= clock)
      && RowsWithin(messages, clock, nextSessionId)
    }

    /** The names held by existing sessions. */
    function Names(): set<string>
      reads this
    {
      set id | id in sessions :: sessions[id].name
    }

    /** An empty database opened at time `now`. */
    constructor (now: nat)
      ensures Valid()
      ensures sessions == map[] && messages == [] && clock == now && nextSessionId == 0
    {
      sessions := map[];
      messages := [];
      clock := now;
      nextSessionId := 0;
    }

    /** The probing loop of `create_new_session_db`: tries `prefix`,
        `prefix (1)`, `prefix (2)`, ... until a name no session holds. */
    method FindFreeName(prefix: string) returns (name: string, count: nat)
      ensures name == Text.SessionName(prefix, count)
      ensures name !in Names()
      ensures forall k :: 0 <= k < count ==> Text.SessionName(prefix, k) in Names()
    {
      var taken := Names();
      count := 0;
      name := prefix;
      while name in taken
        invariant name == Text.SessionName(prefix, count)
        invariant Text.NamesBelow(prefix, count) <= taken
        invariant count <= |taken|
        decreases |taken| - count
      {
        Text.NamesBelowCount(prefix, count + 1);
        SubsetCardinality(Text.NamesBelow(prefix, count + 1), taken);
        count := count + 1;
        name := prefix + " (" + Text.NatToString(count) + ")";
      }
    }

    /** `create_new_session_db`: a fresh session under the first free name,
        created and last updated now, with no documents uploaded. */
    method CreateSession(prefix: string, elapsed: nat) returns (id: SessionId, name: string, ghost probes: nat)
      requires Valid()
      modifies this
      ensures Valid()
      ensures id !in old(sessions) && id == old(nextSessionId)
      ensures name !in old(Names())
      ensures name == Text.SessionName(prefix, probes)
      ensures forall k :: 0 <= k < probes ==> Text.SessionName(prefix, k) in old(Names())
      ensures prefix !in old(Names()) ==> name == prefix
      ensures clock == old(clock) + elapsed
      ensures sessions == old(sessions)[id := Session(name, clock, clock, false)]
      ensures messages == old(messages) && nextSessionId == old(nextSessionId) + 1
      ensures Transcript(messages, id) == []
      ensures FlagsKept(old(sessions), sessions)
    {
      FreshIdNoTranscript(messages, clock, nextSessionId);
      RowsWithinLater(messages, clock, nextSessionId, clock + elapsed, nextSessionId + 1);
      name, probes := FindFreeName(prefix);
      assert probes > 0 ==> Text.SessionName(prefix, 0) in Names();
      id := nextSessionId;
      clock := clock + elapsed;
      sessions := sessions[id := Session(name, clock, clock, false)];
      nextSessionId := nextSessionId + 1;
    }

    /** `get_sessions_db`: every session once, most recently updated first. */
    method ListSessions() returns (list: seq<SessionInfo>)
      ensures IdsOf(list) == sessions.Keys && |list| == |sessions.Keys|
      ensures forall i :: 0 <= i < |list| ==> list[i].id in sessions && list[i] == EntryOf(sessions, list[i].id)
      ensures forall i, j :: 0 <= i < j < |list| ==> list[i].id != list[j].id
      ensures forall i, j :: 0 <= i < j < |list| ==> list[i].lastUpdatedAt >= list[j].lastUpdatedAt
    {
      list := [];
      var remaining := sessions.Keys;
      while remaining != {}
        invariant Listing(sessions, list, remaining)
        decreases |remaining|
      {
        MostRecentExists(sessions, remaining);
        var id :| id in remaining && forall other :: other in remaining ==>
                    sessions[other].lastUpdatedAt <= sessions[id].lastUpdatedAt;
        ListingStep(sessions, list, remaining, id);
        list := list + [EntryOf(sessions, id)];
        remaining := remaining - {id};
      }
    }

    /** `load_messages_db`: the session's messages in timestamp order, each
        with the grounding summary it was saved with. */
    method LoadMessages(sid: SessionId) returns (msgs: seq<ChatMessage>)
      ensures msgs == Transcript(messages, sid)
      ensures forall m :: m in msgs <==> exists r :: r in messages && r.sessionId == sid && m == ToChat(r)
    {
      msgs := [];
      var i := 0;
      while i < |messages|
        invariant 0 <= i <= |messages|
        invariant msgs == Transcript(messages[..i], sid)
      {
        var row := messages[i];
        assert messages[..i + 1] == messages[..i] + [row];
        TranscriptAppend(messages[..i], row, sid);
        if row.sessionId == sid {
          msgs := msgs + [ToChat(row)];
        }
        i := i + 1;
      }
      assert messages[..i] == messages;
      SessionRowsMembers(messages, sid);
      var own := SessionRows(messages, sid);
      forall m | m in msgs
        ensures exists r :: r in messages && r.sessionId == sid && m == ToChat(r)
      {
        var k :| 0 <= k < |msgs| && msgs[k] == m;
        assert own[k] in own;
      }
      forall m | exists r :: r in messages && r.sessionId == sid && m == ToChat(r)
        ensures m in msgs
      {
        var r :| r in messages && r.sessionId == sid && m == ToChat(r);
        var k :| 0 <= k < |own| && own[k] == r;
        assert msgs[k] == m;
      }
    }

    /** `save_message_db`, for a session id the store has issued: one
        message appended, stamped now, and its session (if it still exists)
        marked as updated now; nothing else changes. */
    method SaveMessage(sid: SessionId, role: string, content: string,
                       grounding: Option<GroundingSummary>, elapsed: nat)
      requires Valid()
      requires sid < nextSessionId
      modifies this
      ensures Valid()
      ensures clock == old(clock) + elapsed
      ensures messages == old(messages) + [MessageRow(sid, role, content, clock, StoredOf(grounding))]
      ensures sessions == Touched(old(sessions), sid, clock)
      ensures nextSessionId == old(nextSessionId) && sessions.Keys == old(sessions.Keys)
      ensures FlagsKept(old(sessions), sessions)
      ensures Transcript(messages, sid) == old(Transcript(messages, sid)) + [ChatMessage(role, content, MetadataFor(grounding))]
      ensures forall other :: other != sid ==> Transcript(messages, other) == old(Transcript(messages, other))
    {
      clock := clock + elapsed;
      var row := MessageRow(sid, role, content, clock, StoredOf(grounding));
      TranscriptAppend(messages, row, sid);
      forall other | other != sid
        ensures Transcript(messages + [row], other) == Transcript(messages, other)
      {
        TranscriptAppend(messages, row, other);
      }
      messages := messages + [row];
      sessions := Touched(sessions, sid, clock);
    }

    /** `set_pdfs_uploaded_for_session_db`: the flag becomes 1 and the session
        is marked as updated now. */
    method SetPdfsUploaded(sid: SessionId, elapsed: nat)
      requires Valid()
      modifies this
      ensures Valid()
      ensures clock == old(clock) + elapsed
      ensures sessions == MarkedUploaded(old(sessions), sid, clock)
      ensures sessions.Keys == old(sessions.Keys)
      ensures messages == old(messages) && nextSessionId == old(nextSessionId)
      ensures FlagsKept(old(sessions), sessions)
    {
      clock := clock + elapsed;
      sessions := MarkedUploaded(sessions, sid, clock);
    }

    /** `rename_session_db`: the new name is written as given (no uniqueness
        check) and the session is marked as updated now. */
    method Rename(sid: SessionId, newName: string, elapsed: nat)
      requires Valid()
      modifies this
      ensures Valid()
      ensures clock == old(clock) + elapsed
      ensures sessions == if sid in old(sessions)
                          then old(sessions)[sid := old(sessions)[sid].(name := newName, lastUpdatedAt := clock)]
                          else old(sessions)
      ensures messages == old(messages) && nextSessionId == old(nextSessionId)
      ensures FlagsKept(old(sessions), sessions)
    {
      clock := clock + elapsed;
      if sid in sessions {
        sessions := sessions[sid := sessions[sid].(name := newName, lastUpdatedAt := clock)];
      }
    }

    /** `delete_session_db`: the session row goes. Foreign keys are never
        switched on, so the declared cascade does not run and the session's
        message rows stay in the table. */
    method Delete(sid: SessionId)
      requires Valid()
      modifies this
      ensures Valid()
      ensures sessions == old(sessions) - {sid}
      ensures messages == old(messages)
      ensures clock == old(clock) && nextSessionId == old(nextSessionId)
      ensures FlagsKept(old(sessions), sessions)
    {
      sessions := sessions - {sid};
    }
  }
}
