/** The two session stores, memory and SQLite, against one abstract store. */
module SessionStores {
  import opened Wrappers
  import opened ThreadAggregate

  datatype SessionKey = SessionKey(channel: string, userId: string)

  datatype SessionRecord = SessionRecord(id: nat, createdAt: int, updatedAt: int)

  datatype DedupRecord = DedupRecord(externalMessageId: string, turnId: Option<nat>, completedAt: int)

  datatype ThreadLocator = ThreadLocator(sessionId: nat, key: SessionKey, externalThreadId: string)

  /** `thread_key`; the internal thread id is an injective hash of it, so it stands for the id. */
  function ThreadKey(key: SessionKey, externalThreadId: string): string {
    key.userId + ":" + key.channel + ":" + externalThreadId
  }

  function ThreadId(locator: ThreadLocator): string {
    ThreadKey(locator.key, locator.externalThreadId)
  }

  /** One call of the `SessionStore` interface; a fresh id stands for the UUID that a new session is given. */
  datatype Call =
    | LoadSession(key: SessionKey)
    | ResolveOrCreate(key: SessionKey, freshId: nat, now: int)
    | LoadThread(locator: ThreadLocator)
    | SaveThread(locator: ThreadLocator, thread: ThreadState, now: int, dedupRecord: Option<DedupRecord>)
    | LoadExternal(locator: ThreadLocator, externalMessageId: string)
    | SaveExternal(locator: ThreadLocator, dedup: DedupRecord)

  datatype Reply =
    | SessionReply(session: Option<SessionRecord>)
    | ThreadReply(loaded: Option<ThreadState>)
    | ExternalReply(found: Option<DedupRecord>)
    | SavedAs(revision: nat)
    | RevisionMismatch(expected: nat, actual: nat)
    | Done
    | CallFailed

  /** What serialization keeps of a thread: not its revision, its pending tool events or its open turn. */
  function AsStored(t: ThreadState): ThreadState {
    t.(pending := [], turn := None, revision := 0)
  }

  // ---- The abstract store ----------------------------------------------------------------------

  datatype Versioned = Versioned(revision: nat, snapshot: ThreadState)

  datatype Store = Store(
    sessions: map<SessionKey, SessionRecord>,
    threads: map<string, Versioned>,
    dedup: map<(string, string), DedupRecord>)

  function RevisionIn(a: Store, id: string): nat {
    if id in a.threads then a.threads[id].revision else 0
  }

  function Touched(sessions: map<SessionKey, SessionRecord>, key: SessionKey,
      now: int): map<SessionKey, SessionRecord>
  {
    if key in sessions then sessions[key := sessions[key].(updatedAt := now)] else sessions
  }

  function WithRecord(dedup: map<(string, string), DedupRecord>, id: string,
      record: Option<DedupRecord>): map<(string, string), DedupRecord>
  {
    if record.Some? then dedup[(id, record.value.externalMessageId) := record.value] else dedup
  }

  /** What any store owes its caller. */
  function Act(a: Store, call: Call): (Store, Reply) {
    match call
    case LoadSession(key) => (a, SessionReply(if key in a.sessions then Some(a.sessions[key]) else None))
    case ResolveOrCreate(key, freshId, now) =>
      var record := if key in a.sessions then a.sessions[key].(updatedAt := now) else SessionRecord(freshId, now, now);
      (a.(sessions := a.sessions[key := record]), SessionReply(Some(record)))
    case LoadThread(locator) =>
      var id := ThreadId(locator);
      (a, ThreadReply(if id in a.threads then Some(a.threads[id].snapshot.(revision := a.threads[id].revision))
                      else None))
    case SaveThread(locator, thread, now, record) =>
      var id, actual := ThreadId(locator), RevisionIn(a, ThreadId(locator));
      if thread.revision != actual then (a, RevisionMismatch(thread.revision, actual))
      else
        (Store(Touched(a.sessions, locator.key, now),
               a.threads[id := Versioned(actual + 1, AsStored(thread))],
               WithRecord(a.dedup, id, record)),
         SavedAs(actual + 1))
    case LoadExternal(locator, externalId) =>
      var k := (ThreadId(locator), externalId);
      (a, ExternalReply(if k in a.dedup then Some(a.dedup[k]) else None))
    case SaveExternal(locator, record) => (a.(dedup := WithRecord(a.dedup, ThreadId(locator), Some(record))), Done)
  }

  function ActAll(a: Store, calls: seq<Call>): (r: (Store, seq<Reply>))
    decreases |calls|
  {
    if calls == [] then (a, [])
    else
      var first := Act(a, calls[0]);
      var rest := ActAll(first.0, calls[1..]);
      (rest.0, [first.1] + rest.1)
  }

  // ---- What the session manager asks for -------------------------------------------------------

  /** The threads that a run works on, by session and external id. */
  type Threads = set<(SessionKey, string)>

  /** No two of the threads share an id. */
  predicate NoSharing(used: Threads) {
    forall u, v | u in used && v in used && ThreadKey(u.0, u.1) == ThreadKey(v.0, v.1) :: u == v
  }

  /** The locator names a session that was resolved from this store, as the manager's locators do. */
  predicate Resolved(a: Store, locator: ThreadLocator) {
    locator.key in a.sessions && a.sessions[locator.key].id == locator.sessionId
  }

  predicate Uses(used: Threads, locator: ThreadLocator) {
    (locator.key, locator.externalThreadId) in used
  }

  /** The calls the manager makes: resolved locators, fresh session ids, and dedup records of saved threads only. */
  predicate Proper(a: Store, used: Threads, call: Call) {
    match call
    case LoadSession(_) => true
    case ResolveOrCreate(_, freshId, _) => forall k | k in a.sessions :: a.sessions[k].id != freshId
    case LoadThread(locator) => Resolved(a, locator) && Uses(used, locator)
    case SaveThread(locator, _, _, _) => Resolved(a, locator) && Uses(used, locator)
    case LoadExternal(locator, _) => Resolved(a, locator) && Uses(used, locator)
    case SaveExternal(locator, _) => Resolved(a, locator) && Uses(used, locator) && ThreadId(locator) in a.threads
  }

  predicate AllProper(a: Store, used: Threads, calls: seq<Call>)
    decreases |calls|
  {
    calls == [] || (Proper(a, used, calls[0]) && AllProper(Act(a, calls[0]).0, used, calls[1..]))
  }

  // ---- Thread keys -----------------------------------------------------------------------------

  predicate NoColon(s: string) {
    forall i | 0 <= i < |s| :: s[i] != ':'
  }

  /** A key whose threads cannot be mistaken for another such session's. */
  predicate CleanKey(key: SessionKey) {
    NoColon(key.userId) && NoColon(key.channel)
  }

  lemma SplitAtColon(a: string, x: string, b: string, y: string)
    requires NoColon(a) && NoColon(b) && a + ":" + x == b + ":" + y
    ensures a == b && x == y
  {
    var s := a + ":" + x;
    assert s[|a|] == ':' && s[|b|] == ':';
    assert forall i | 0 <= i < |a| :: s[i] == a[i];
    assert forall i | 0 <= i < |b| :: s[i] == b[i];
    assert |a| == |b|;
    assert a == s[..|a|] && b == s[..|b|];
    assert x == s[|a| + 1..] && y == s[|b| + 1..];
  }

  /** Without colons in channel and user, two threads share an id only if they are the same thread. */
  lemma ThreadKeyInjective(k1: SessionKey, e1: string, k2: SessionKey, e2: string)
    requires CleanKey(k1) && CleanKey(k2) && ThreadKey(k1, e1) == ThreadKey(k2, e2)
    ensures k1 == k2 && e1 == e2
  {
    assert ThreadKey(k1, e1) == k1.userId + ":" + (k1.channel + ":" + e1);
    assert ThreadKey(k2, e2) == k2.userId + ":" + (k2.channel + ":" + e2);
    SplitAtColon(k1.userId, k1.channel + ":" + e1, k2.userId, k2.channel + ":" + e2);
    SplitAtColon(k1.channel, e1, k2.channel, e2);
  }

  /** So a run over such sessions shares no thread id. */
  lemma CleanKeysShareNothing(used: Threads)
    requires forall u | u in used :: CleanKey(u.0)
    ensures NoSharing(used)
  {
    hide ThreadKey, CleanKey;
    forall u, v | u in used && v in used && ThreadKey(u.0, u.1) == ThreadKey(v.0, v.1) ensures u == v {
      ThreadKeyInjective(u.0, u.1, v.0, v.1);
    }
  }

  /** With a colon in its user, a session shares each of its thread ids with another one. */
  lemma ThreadKeysCollide(key: SessionKey, at: nat, externalThreadId: string)
    requires at < |key.userId| && key.userId[at] == ':'
    ensures var other := SessionKey(key.userId[at + 1..] + ":" + key.channel, key.userId[..at]);
            other != key && ThreadKey(other, externalThreadId) == ThreadKey(key, externalThreadId)
  {
    var before, after := key.userId[..at], key.userId[at + 1..];
    assert key.userId == before + ":" + after;
    assert before + ":" + (after + ":" + key.channel) + ":" + externalThreadId
        == before + ":" + after + ":" + key.channel + ":" + externalThreadId;
  }

  // ---- The memory store --------------------------------------------------------------------------

  datatype MemoryState = MemoryState(
    sessions: map<SessionKey, SessionRecord>,
    threads: map<string, ThreadState>,
    externalMessages: map<(string, string), DedupRecord>)

  function MemoryAct(m: MemoryState, call: Call): (MemoryState, Reply) {
    match call
    case LoadSession(key) => (m, SessionReply(if key in m.sessions then Some(m.sessions[key]) else None))
    case ResolveOrCreate(key, freshId, now) =>
      var record := (if key in m.sessions then m.sessions[key]
                     else SessionRecord(freshId, now, now)).(updatedAt := now);
      (m.(sessions := m.sessions[key := record]), SessionReply(Some(record)))
    case LoadThread(locator) =>
      var id := ThreadId(locator);
      (m, ThreadReply(if id in m.threads then Some(m.threads[id]) else None))
    case SaveThread(locator, thread, now, record) =>
      var id := ThreadId(locator);
      var actual := if id in m.threads then m.threads[id].revision else 0;
      if locator.key !in m.sessions then (m, CallFailed)
      else if thread.revision != actual then (m, RevisionMismatch(thread.revision, actual))
      else
        (MemoryState(Touched(m.sessions, locator.key, now),
                     m.threads[id := thread.(revision := actual + 1)],
                     WithRecord(m.externalMessages, id, record)),
         SavedAs(actual + 1))
    case LoadExternal(locator, externalId) =>
      var k := (ThreadId(locator), externalId);
      (m, ExternalReply(if k in m.externalMessages then Some(m.externalMessages[k]) else None))
    case SaveExternal(locator, record) =>
      (m.(externalMessages := WithRecord(m.externalMessages, ThreadId(locator), Some(record))), Done)
  }

  function MemoryAbs(m: MemoryState): Store {
    Store(m.sessions, map id | id in m.threads :: Versioned(m.threads[id].revision, AsStored(m.threads[id])),
          m.externalMessages)
  }

  /**
   * A reply as its serialized form; the memory store alone hands back the open turn and the pending events
   * it was given.
   */
  function Observed(reply: Reply): Reply {
    if reply.ThreadReply? && reply.loaded.Some? then
      ThreadReply(Some(AsStored(reply.loaded.value).(revision := reply.loaded.value.revision)))
    else reply
  }

  lemma StoredIgnoresRevision(t: ThreadState, revision: nat)
    ensures AsStored(t.(revision := revision)) == AsStored(t)
  {
  }

  lemma MemoryRefines(m: MemoryState, call: Call)
    requires call.SaveThread? ==> call.locator.key in m.sessions
    ensures var (m', reply) := MemoryAct(m, call);
            Act(MemoryAbs(m), call) == (MemoryAbs(m'), Observed(reply))
  {
    hide ThreadKey, WithRecord, Touched, AsStored;
    var (m', reply) := MemoryAct(m, call);
    match call
    case SaveThread(locator, thread, now, record) =>
      StoredIgnoresRevision(thread, thread.revision + 1);
      if reply.SavedAs? {
        assert MemoryAbs(m').threads == Act(MemoryAbs(m), call).0.threads;
      }
    case _ =>
  }

  // ---- The SQLite store --------------------------------------------------------------------------

  datatype ThreadRow = ThreadRow(sessionId: nat, externalThreadId: string, revision: nat, snapshot: ThreadState)

  /**
   * The three tables: `session_metadata` by its unique (channel, user), `thread_metadata` and the dedup
   * table by primary key.
   */
  datatype Tables = Tables(
    sessionMetadata: map<SessionKey, SessionRecord>,
    threadMetadata: map<string, ThreadRow>,
    externalMessageDedup: map<(string, string), DedupRecord>)

  predicate SessionExists(q: Tables, sessionId: nat) {
    exists k | k in q.sessionMetadata :: q.sessionMetadata[k].id == sessionId
  }

  /** UNIQUE(session_id, external_thread_id), for a row about to be written. */
  predicate UniquePair(q: Tables, id: string, sessionId: nat, externalThreadId: string) {
    forall t | t in q.threadMetadata && t != id ::
      !(q.threadMetadata[t].sessionId == sessionId && q.threadMetadata[t].externalThreadId == externalThreadId)
  }

  /** UPDATE session_metadata ... WHERE session_id = ? */
  function TouchById(sessions: map<SessionKey, SessionRecord>, sessionId: nat,
      now: int): map<SessionKey, SessionRecord>
  {
    map k | k in sessions :: if sessions[k].id == sessionId then sessions[k].(updatedAt := now) else sessions[k]
  }

  /** The upsert of one dedup record; its foreign key needs the thread's row. */
  function Upsert(q: Tables, id: string, record: DedupRecord): Option<Tables> {
    if id in q.threadMetadata
        then Some(q.(externalMessageDedup := q.externalMessageDedup[(id, record.externalMessageId) := record]))
    else None
  }

  /** The foreign key and the unique pair of a row about to be written for a locator. */
  predicate RowAllowed(q: Tables, locator: ThreadLocator) {
    && SessionExists(q, locator.sessionId)
    && UniquePair(q, ThreadId(locator), locator.sessionId, locator.externalThreadId)
  }

  /** INSERT for a thread at revision 0, UPDATE otherwise; a violated constraint fails the statement. */
  function WriteThread(q: Tables, locator: ThreadLocator, thread: ThreadState, actual: nat): Option<Tables> {
    var id := ThreadId(locator);
    var row := ThreadRow(locator.sessionId, locator.externalThreadId, actual + 1, AsStored(thread));
    if actual == 0 then
      if id in q.threadMetadata || !RowAllowed(q, locator) then None
      else Some(q.(threadMetadata := q.threadMetadata[id := row]))
    else if id !in q.threadMetadata then Some(q)
    else if !RowAllowed(q, locator) then None
    else Some(q.(threadMetadata := q.threadMetadata[id := row]))
  }

  /** One transaction: a failed statement rolls everything back. */
  function SqlSave(q: Tables, locator: ThreadLocator, thread: ThreadState, now: int,
      record: Option<DedupRecord>): (Tables, Reply)
  {
    var id := ThreadId(locator);
    var actual := if id in q.threadMetadata then q.threadMetadata[id].revision else 0;
    if actual != thread.revision then (q, RevisionMismatch(thread.revision, actual))
    else
      var touched := q.(sessionMetadata := TouchById(q.sessionMetadata, locator.sessionId, now));
      var written := WriteThread(touched, locator, thread, actual);
      if written.None? then (q, CallFailed)
      else if record.None? then (written.value, SavedAs(actual + 1))
      else
        var bound := Upsert(written.value, id, record.value);
        if bound.None? then (q, CallFailed) else (bound.value, SavedAs(actual + 1))
  }

  function SqlAct(q: Tables, call: Call): (Tables, Reply) {
    match call
    case LoadSession(key) => (q, SessionReply(if key in q.sessionMetadata then Some(q.sessionMetadata[key]) else None))
    case ResolveOrCreate(key, freshId, now) =>
      if key in q.sessionMetadata then
        var existing := q.sessionMetadata[key];
        (q.(sessionMetadata := TouchById(q.sessionMetadata, existing.id, now)),
         SessionReply(Some(existing.(updatedAt := now))))
      else if SessionExists(q, freshId) then (q, CallFailed)
      else
        (q.(sessionMetadata := q.sessionMetadata[key := SessionRecord(freshId, now, now)]),
         SessionReply(Some(SessionRecord(freshId, now, now))))
    case LoadThread(locator) =>
      var id := ThreadId(locator);
      if id in q.threadMetadata && q.threadMetadata[id].sessionId == locator.sessionId then
        (q, ThreadReply(Some(q.threadMetadata[id].snapshot.(revision := q.threadMetadata[id].revision))))
      else (q, ThreadReply(None))
    case SaveThread(locator, thread, now, record) => SqlSave(q, locator, thread, now, record)
    case LoadExternal(locator, externalId) =>
      var k := (ThreadId(locator), externalId);
      (q, ExternalReply(if k in q.externalMessageDedup then Some(q.externalMessageDedup[k]) else None))
    case SaveExternal(locator, record) =>
      var bound := Upsert(q, ThreadId(locator), record);
      if bound.None? then (q, CallFailed) else (bound.value, Done)
  }

  function SqlAbs(q: Tables): Store {
    Store(q.sessionMetadata,
          map id | id in q.threadMetadata :: Versioned(q.threadMetadata[id].revision, q.threadMetadata[id].snapshot),
          q.externalMessageDedup)
  }

  ghost predicate Owns(q: Tables, used: Threads, k: SessionKey, row: ThreadRow, id: string) {
    && k in q.sessionMetadata && q.sessionMetadata[k].id == row.sessionId
    && (k, row.externalThreadId) in used && id == ThreadKey(k, row.externalThreadId)
  }

  /** The row belongs to a session of the table, under the id derived from that session and its own external id. */
  ghost predicate RowOk(q: Tables, used: Threads, id: string) {
    id in q.threadMetadata &&
    var row := q.threadMetadata[id];
    && row.revision >= 1
    && exists k :: Owns(q, used, k, row, id)
  }

  predicate DistinctIds(q: Tables) {
    forall k, l | k in q.sessionMetadata && l in q.sessionMetadata && k != l ::
      q.sessionMetadata[k].id != q.sessionMetadata[l].id
  }

  ghost predicate TablesOk(q: Tables, used: Threads) {
    DistinctIds(q) && forall id | id in q.threadMetadata :: RowOk(q, used, id)
  }

  lemma TouchIsTouch(q: Tables, key: SessionKey, now: int)
    requires DistinctIds(q) && key in q.sessionMetadata
    ensures TouchById(q.sessionMetadata, q.sessionMetadata[key].id, now) == Touched(q.sessionMetadata, key, now)
  {
  }

  /** A row keeps its owner as long as no session loses its id. */
  lemma RowStays(q: Tables, q': Tables, used: Threads, id: string)
    requires RowOk(q, used, id) && id in q'.threadMetadata && q'.threadMetadata[id] == q.threadMetadata[id]
    requires forall k | k in q.sessionMetadata ::
               k in q'.sessionMetadata && q'.sessionMetadata[k].id == q.sessionMetadata[k].id
    ensures RowOk(q', used, id)
  {
    hide ThreadKey;
    var k :| Owns(q, used, k, q.threadMetadata[id], id);
    assert Owns(q', used, k, q'.threadMetadata[id], id);
  }

  lemma TouchKeepsOk(q: Tables, used: Threads, sessionId: nat, now: int)
    requires TablesOk(q, used)
    ensures TablesOk(q.(sessionMetadata := TouchById(q.sessionMetadata, sessionId, now)), used)
  {
    hide ThreadKey;
    var q' := q.(sessionMetadata := TouchById(q.sessionMetadata, sessionId, now));
    forall id | id in q'.threadMetadata
      ensures RowOk(q', used, id)
    {
      RowStays(q, q', used, id);
    }
  }

  /** A resolved locator names the session that owns the thread's row, if there is one. */
  lemma RowIsOurs(q: Tables, used: Threads, locator: ThreadLocator)
    requires TablesOk(q, used) && Resolved(SqlAbs(q), locator) && Uses(used, locator) && NoSharing(used)
    ensures var id := ThreadId(locator);
            id in q.threadMetadata ==>
              && q.threadMetadata[id].sessionId == locator.sessionId
              && q.threadMetadata[id].externalThreadId == locator.externalThreadId
              && q.threadMetadata[id].revision >= 1
  {
    hide ThreadKey;
    var id := ThreadId(locator);
    if id in q.threadMetadata {
      assert RowOk(q, used, id);
      var row := q.threadMetadata[id];
      var k :| Owns(q, used, k, row, id);
      assert (k, row.externalThreadId) == (locator.key, locator.externalThreadId);
    }
  }

  /** No other row of the table can hold a resolved locator's session and external id. */
  lemma PairIsFree(q: Tables, used: Threads, locator: ThreadLocator)
    requires TablesOk(q, used) && Resolved(SqlAbs(q), locator)
    ensures UniquePair(q, ThreadId(locator), locator.sessionId, locator.externalThreadId)
  {
    hide ThreadKey;
    forall t | t in q.threadMetadata && t != ThreadId(locator)
      ensures !(q.threadMetadata[t].sessionId == locator.sessionId
                && q.threadMetadata[t].externalThreadId == locator.externalThreadId)
    {
      assert RowOk(q, used, t);
      var row := q.threadMetadata[t];
      var k :| Owns(q, used, k, row, t);
      assert k != locator.key ==> q.sessionMetadata[k].id != q.sessionMetadata[locator.key].id;
    }
  }

  /**
   * A save's statement never violates a constraint, and its INSERT branch runs exactly when the
   * thread has no row, because every stored revision is at least 1.
   */
  lemma WriteSucceeds(q: Tables, used: Threads, locator: ThreadLocator, thread: ThreadState)
    requires TablesOk(q, used) && Resolved(SqlAbs(q), locator) && Uses(used, locator) && NoSharing(used)
    ensures var id := ThreadId(locator);
            var actual := RevisionIn(SqlAbs(q), id);
            var row := ThreadRow(locator.sessionId, locator.externalThreadId, actual + 1, AsStored(thread));
            && (actual == 0 <==> id !in q.threadMetadata)
            && WriteThread(q, locator, thread, actual) == Some(q.(threadMetadata := q.threadMetadata[id := row]))
  {
    hide ThreadKey, TablesOk;
    RowIsOurs(q, used, locator);
    PairIsFree(q, used, locator);
    assert SessionExists(q, locator.sessionId);
  }

  lemma WriteKeepsOk(q: Tables, used: Threads, locator: ThreadLocator, row: ThreadRow)
    requires TablesOk(q, used) && Resolved(SqlAbs(q), locator) && Uses(used, locator)
    requires row.sessionId == locator.sessionId && row.externalThreadId == locator.externalThreadId && row.revision >= 1
    ensures TablesOk(q.(threadMetadata := q.threadMetadata[ThreadId(locator) := row]), used)
  {
    hide ThreadKey;
    var q' := q.(threadMetadata := q.threadMetadata[ThreadId(locator) := row]);
    forall id | id in q'.threadMetadata
      ensures RowOk(q', used, id)
    {
      if id != ThreadId(locator) {
        RowStays(q, q', used, id);
      } else {
        assert Owns(q', used, locator.key, row, id);
      }
    }
  }

  /** The tables after a save that met the current revision. */
  function SavedTables(q: Tables, locator: ThreadLocator, thread: ThreadState, now: int,
      record: Option<DedupRecord>): Tables
  {
    var id, actual := ThreadId(locator), RevisionIn(SqlAbs(q), ThreadId(locator));
    var row := ThreadRow(locator.sessionId, locator.externalThreadId, actual + 1, AsStored(thread));
    Tables(TouchById(q.sessionMetadata, locator.sessionId, now),
           q.threadMetadata[id := row],
           WithRecord(q.externalMessageDedup, id, record))
  }

  lemma SaveWrites(q: Tables, used: Threads, locator: ThreadLocator, thread: ThreadState, now: int,
                   record: Option<DedupRecord>)
    requires TablesOk(q, used) && Resolved(SqlAbs(q), locator) && Uses(used, locator) && NoSharing(used)
    requires thread.revision == RevisionIn(SqlAbs(q), ThreadId(locator))
    ensures SqlSave(q, locator, thread, now, record)
         == (SavedTables(q, locator, thread, now, record), SavedAs(thread.revision + 1))
    ensures TablesOk(SavedTables(q, locator, thread, now, record), used)
  {
    hide ThreadKey, TablesOk, NoSharing, Resolved, WriteThread, TouchById, AsStored;
    var id, actual := ThreadId(locator), thread.revision;
    var touched := q.(sessionMetadata := TouchById(q.sessionMetadata, locator.sessionId, now));
    var row := ThreadRow(locator.sessionId, locator.externalThreadId, actual + 1, AsStored(thread));
    TouchKeepsOk(q, used, locator.sessionId, now);
    TouchedResolved(q, locator, now);
    WriteSucceeds(touched, used, locator, thread);
    WriteKeepsOk(touched, used, locator, row);
    var written := touched.(threadMetadata := touched.threadMetadata[id := row]);
    if record.Some? {
      DedupKeepsOk(written, used, id, record.value);
    }
  }

  lemma SaveRefines(q: Tables, used: Threads, locator: ThreadLocator, thread: ThreadState, now: int,
                    record: Option<DedupRecord>)
    requires TablesOk(q, used) && Resolved(SqlAbs(q), locator) && Uses(used, locator) && NoSharing(used)
    ensures var (q', reply) := SqlSave(q, locator, thread, now, record);
            && TablesOk(q', used)
            && Act(SqlAbs(q), SaveThread(locator, thread, now, record)) == (SqlAbs(q'), reply)
  {
    hide ThreadKey, TablesOk, NoSharing, Resolved, WriteThread, TouchById, AsStored;
    var id := ThreadId(locator);
    if thread.revision == RevisionIn(SqlAbs(q), id) {
      hide SqlSave;
      SaveWrites(q, used, locator, thread, now, record);
      OkParts(q, used, locator);
      TouchIsTouch(q, locator.key, now);
      var q' := SavedTables(q, locator, thread, now, record);
      assert SqlAbs(q').threads == SqlAbs(q).threads[id := Versioned(thread.revision + 1, AsStored(thread))];
    }
  }

  lemma OkParts(q: Tables, used: Threads, locator: ThreadLocator)
    requires TablesOk(q, used) && Resolved(SqlAbs(q), locator)
    ensures DistinctIds(q) && locator.key in q.sessionMetadata && q.sessionMetadata[locator.key].id == locator.sessionId
  {
  }

  lemma TouchedResolved(q: Tables, locator: ThreadLocator, now: int)
    requires Resolved(SqlAbs(q), locator)
    ensures Resolved(SqlAbs(q.(sessionMetadata := TouchById(q.sessionMetadata, locator.sessionId, now))), locator)
  {
  }

  lemma DedupKeepsOk(q: Tables, used: Threads, id: string, record: DedupRecord)
    requires TablesOk(q, used)
    ensures TablesOk(q.(externalMessageDedup := q.externalMessageDedup[(id, record.externalMessageId) := record]), used)
  {
    hide ThreadKey;
    var q' := q.(externalMessageDedup := q.externalMessageDedup[(id, record.externalMessageId) := record]);
    forall t | t in q'.threadMetadata
      ensures RowOk(q', used, t)
    {
      RowStays(q, q', used, t);
    }
  }

  lemma ResolveRefines(q: Tables, used: Threads, key: SessionKey, freshId: nat, now: int)
    requires TablesOk(q, used) && Proper(SqlAbs(q), used, ResolveOrCreate(key, freshId, now))
    ensures var call := ResolveOrCreate(key, freshId, now);
            var (q', reply) := SqlAct(q, call);
            TablesOk(q', used) && Act(SqlAbs(q), call) == (SqlAbs(q'), reply)
  {
    hide ThreadKey;
    if key in q.sessionMetadata {
      TouchIsTouch(q, key, now);
      TouchKeepsOk(q, used, q.sessionMetadata[key].id, now);
    } else {
      var q' := SqlAct(q, ResolveOrCreate(key, freshId, now)).0;
      forall id | id in q'.threadMetadata
        ensures RowOk(q', used, id)
      {
        RowStays(q, q', used, id);
      }
    }
  }

  /** On every call the manager makes, SQLite keeps its tables well formed and answers as the abstract store does. */
  lemma SqlRefines(q: Tables, used: Threads, call: Call)
    requires TablesOk(q, used) && NoSharing(used) && Proper(SqlAbs(q), used, call)
    ensures var (q', reply) := SqlAct(q, call);
            TablesOk(q', used) && Act(SqlAbs(q), call) == (SqlAbs(q'), reply)
  {
    hide ThreadKey, TablesOk, NoSharing, Resolved, SqlSave, WriteThread, TouchById, SessionExists;
    match call
    case ResolveOrCreate(key, freshId, now) => ResolveRefines(q, used, key, freshId, now);
    case LoadThread(locator) => RowIsOurs(q, used, locator);
    case SaveThread(locator, thread, now, record) => SaveRefines(q, used, locator, thread, now, record);
    case SaveExternal(locator, record) => DedupKeepsOk(q, used, ThreadId(locator), record);
    case _ =>
  }

  // ---- Both stores, call by call -----------------------------------------------------------------

  function MemoryAll(m: MemoryState, calls: seq<Call>): (MemoryState, seq<Reply>)
    decreases |calls|
  {
    if calls == [] then (m, [])
    else
      var first := MemoryAct(m, calls[0]);
      var rest := MemoryAll(first.0, calls[1..]);
      (rest.0, [Observed(first.1)] + rest.1)
  }

  function SqlAll(q: Tables, calls: seq<Call>): (Tables, seq<Reply>)
    decreases |calls|
  {
    if calls == [] then (q, [])
    else
      var first := SqlAct(q, calls[0]);
      var rest := SqlAll(first.0, calls[1..]);
      (rest.0, [first.1] + rest.1)
  }

  lemma ProperSaves(m: MemoryState, used: Threads, call: Call)
    requires Proper(MemoryAbs(m), used, call)
    ensures call.SaveThread? ==> call.locator.key in m.sessions
  {
  }

  /**
   * Over any sequence of calls the manager makes, both stores give the abstract store's replies: the same
   * revisions, conflicts and threads.
   */
  lemma {:induction false} StoresAgree(m: MemoryState, q: Tables, used: Threads, calls: seq<Call>)
    requires TablesOk(q, used) && NoSharing(used) && MemoryAbs(m) == SqlAbs(q) && AllProper(SqlAbs(q), used, calls)
    ensures MemoryAll(m, calls).1 == SqlAll(q, calls).1 == ActAll(SqlAbs(q), calls).1
    ensures MemoryAbs(MemoryAll(m, calls).0) == SqlAbs(SqlAll(q, calls).0) == ActAll(SqlAbs(q), calls).0
    decreases |calls|
  {
    hide Act, MemoryAct, SqlAct, MemoryAbs, SqlAbs, TablesOk, NoSharing, Proper, Observed;
    if calls != [] {
      ProperSaves(m, used, calls[0]);
      MemoryRefines(m, calls[0]);
      SqlRefines(q, used, calls[0]);
      StoresAgree(MemoryAct(m, calls[0]).0, SqlAct(q, calls[0]).0, used, calls[1..]);
    }
  }

  const NEW_MEMORY := MemoryState(map[], map[], map[])
  const NEW_TABLES := Tables(map[], map[], map[])

  /** Two new stores start in agreement. */
  lemma NewStoresAgree(used: Threads)
    ensures TablesOk(NEW_TABLES, used) && MemoryAbs(NEW_MEMORY) == SqlAbs(NEW_TABLES)
  {
  }

  // ---- Where they differ ---------------------------------------------------------------------------

  /**
   * A dedup record on its own is stored by both exactly when its thread was saved before: SQLite's foreign
   * key refuses the rest.
   */
  lemma SaveExternalAgrees(m: MemoryState, q: Tables, locator: ThreadLocator, record: DedupRecord)
    requires MemoryAbs(m) == SqlAbs(q)
    ensures var call := SaveExternal(locator, record);
            && MemoryAct(m, call).1 == Done
            && (SqlAct(q, call).1 == Done <==> ThreadId(locator) in m.threads)
            && (SqlAct(q, call).1 == CallFailed <==> ThreadId(locator) !in m.threads)
  {
    hide ThreadKey;
    assert MemoryAbs(m).threads.Keys == m.threads.Keys;
    assert SqlAbs(q).threads.Keys == q.threadMetadata.Keys;
  }

  /**
   * A load gives the same serialized thread in both stores exactly when there is no row, or the row is that
   * session's own.
   */
  lemma LoadAgrees(m: MemoryState, q: Tables, locator: ThreadLocator)
    requires MemoryAbs(m) == SqlAbs(q)
    ensures var id, call := ThreadId(locator), LoadThread(locator);
            Observed(MemoryAct(m, call).1) == SqlAct(q, call).1
            <==> id !in q.threadMetadata || q.threadMetadata[id].sessionId == locator.sessionId
  {
    hide ThreadKey;
    var id := ThreadId(locator);
    SameThreads(m, q, id);
  }

  lemma SameThreads(m: MemoryState, q: Tables, id: string)
    requires MemoryAbs(m) == SqlAbs(q)
    ensures id in m.threads <==> id in q.threadMetadata
    ensures id in m.threads ==>
              && q.threadMetadata[id].revision == m.threads[id].revision
              && q.threadMetadata[id].snapshot == AsStored(m.threads[id])
  {
    assert MemoryAbs(m).threads.Keys == m.threads.Keys;
    assert SqlAbs(q).threads.Keys == q.threadMetadata.Keys;
    assert id in m.threads ==> MemoryAbs(m).threads[id] == SqlAbs(q).threads[id];
  }

  /**
   * As returned, the two threads are equal exactly when, besides, the thread that memory keeps has
   * no open turn and no pending tool events: serialization drops both.
   */
  lemma RawLoadAgrees(m: MemoryState, q: Tables, locator: ThreadLocator)
    requires MemoryAbs(m) == SqlAbs(q)
    ensures var id, call := ThreadId(locator), LoadThread(locator);
            MemoryAct(m, call).1 == SqlAct(q, call).1
            <==> id !in q.threadMetadata
                 || (&& q.threadMetadata[id].sessionId == locator.sessionId
                     && id in m.threads && m.threads[id].turn.None? && m.threads[id].pending == [])
  {
    hide ThreadKey;
    SameThreads(m, q, ThreadId(locator));
  }

  /** Two sessions are resolved, the first saves a new thread, and the second asks for one of its own. */
  function SharingCalls(ours: (SessionKey, string), theirs: (SessionKey, string), thread: ThreadState): seq<Call> {
    [ResolveOrCreate(ours.0, 0, 0), ResolveOrCreate(theirs.0, 1, 0),
     SaveThread(ThreadLocator(0, ours.0, ours.1), thread, 0, None), LoadThread(ThreadLocator(1, theirs.0, theirs.1))]
  }

  lemma AllCons(m: MemoryState, q: Tables, call: Call, rest: seq<Call>)
    ensures MemoryAll(m, [call] + rest).1 == [Observed(MemoryAct(m, call).1)] + MemoryAll(MemoryAct(m, call).0, rest).1
    ensures SqlAll(q, [call] + rest).1 == [SqlAct(q, call).1] + SqlAll(SqlAct(q, call).0, rest).1
  {
    hide MemoryAct, SqlAct, Observed;
    assert ([call] + rest)[1..] == rest;
  }

  lemma AllFour(m: MemoryState, q: Tables, a: Call, b: Call, c: Call, d: Call)
    ensures var m3 := MemoryAct(MemoryAct(MemoryAct(m, a).0, b).0, c).0;
            var q3 := SqlAct(SqlAct(SqlAct(q, a).0, b).0, c).0;
            && |MemoryAll(m, [a, b, c, d]).1| == |SqlAll(q, [a, b, c, d]).1| == 4
            && MemoryAll(m, [a, b, c, d]).1[3] == Observed(MemoryAct(m3, d).1)
            && SqlAll(q, [a, b, c, d]).1[3] == SqlAct(q3, d).1
  {
    hide MemoryAct, SqlAct, Observed;
    var m1, q1 := MemoryAct(m, a).0, SqlAct(q, a).0;
    var m2, q2 := MemoryAct(m1, b).0, SqlAct(q1, b).0;
    var m3, q3 := MemoryAct(m2, c).0, SqlAct(q2, c).0;
    AllCons(m, q, a, [b, c, d]);
    AllCons(m1, q1, b, [c, d]);
    AllCons(m2, q2, c, [d]);
    AllCons(m3, q3, d, []);
    assert [a] + [b, c, d] == [a, b, c, d] && [b] + [c, d] == [b, c, d] && [c] + [d] == [c, d] && [d] + [] == [d];
  }

  /**
   * From two new stores, whenever two sessions' threads share an id and the first saves its own, the
   * second finds that one in memory, and nothing in SQLite.
   */
  lemma SharedIdsDiverge(ours: (SessionKey, string), theirs: (SessionKey, string), thread: ThreadState)
    requires ours.0 != theirs.0 && ThreadKey(ours.0, ours.1) == ThreadKey(theirs.0, theirs.1) && thread.revision == 0
    ensures var calls := SharingCalls(ours, theirs, thread);
            var memory, sql := MemoryAll(NEW_MEMORY, calls).1, SqlAll(NEW_TABLES, calls).1;
            && |memory| == |sql| == 4
            && memory[3] == ThreadReply(Some(AsStored(thread).(revision := 1)))
            && sql[3] == ThreadReply(None)
  {
    hide ThreadKey, MemoryAll, SqlAll;
    var calls := SharingCalls(ours, theirs, thread);
    AllFour(NEW_MEMORY, NEW_TABLES, calls[0], calls[1], calls[2], calls[3]);
    assert calls == [calls[0], calls[1], calls[2], calls[3]];
    hide Touched, WithRecord;
    SavedInMemory(ours, theirs, thread);
    SavedInTables(ours, theirs, thread);
  }

  lemma SavedInMemory(ours: (SessionKey, string), theirs: (SessionKey, string), thread: ThreadState)
    requires thread.revision == 0 && ThreadKey(ours.0, ours.1) == ThreadKey(theirs.0, theirs.1)
    ensures var calls := SharingCalls(ours, theirs, thread);
            var m3 := MemoryAct(MemoryAct(MemoryAct(NEW_MEMORY, calls[0]).0, calls[1]).0, calls[2]).0;
            Observed(MemoryAct(m3, calls[3]).1) == ThreadReply(Some(AsStored(thread).(revision := 1)))
  {
    hide ThreadKey, Touched, WithRecord;
  }

  lemma SavedInTables(ours: (SessionKey, string), theirs: (SessionKey, string), thread: ThreadState)
    requires ours.0 != theirs.0 && thread.revision == 0 && ThreadKey(ours.0, ours.1) == ThreadKey(theirs.0, theirs.1)
    ensures var calls := SharingCalls(ours, theirs, thread);
            var q3 := SqlAct(SqlAct(SqlAct(NEW_TABLES, calls[0]).0, calls[1]).0, calls[2]).0;
            SqlAct(q3, calls[3]).1 == ThreadReply(None)
  {
    hide ThreadKey;
    var calls := SharingCalls(ours, theirs, thread);
    var q1 := SqlAct(NEW_TABLES, calls[0]).0;
    assert q1.sessionMetadata == map[ours.0 := SessionRecord(0, 0, 0)];
    var q2 := SqlAct(q1, calls[1]).0;
    assert ours.0 in q2.sessionMetadata && q2.sessionMetadata[ours.0].id == 0 && q2.threadMetadata == map[];
    FirstRow(q2, ThreadLocator(0, ours.0, ours.1), thread);
  }

  lemma FirstRow(q: Tables, locator: ThreadLocator, thread: ThreadState)
    requires q.threadMetadata == map[] && thread.revision == 0 && locator.key in q.sessionMetadata
    requires q.sessionMetadata[locator.key].id == locator.sessionId
    ensures var q' := SqlAct(q, SaveThread(locator, thread, 0, None)).0;
            ThreadId(locator) in q'.threadMetadata
                && q'.threadMetadata[ThreadId(locator)].sessionId == locator.sessionId
  {
    hide ThreadKey;
    var touched := q.(sessionMetadata := TouchById(q.sessionMetadata, locator.sessionId, 0));
    assert locator.key in touched.sessionMetadata && touched.sessionMetadata[locator.key].id == locator.sessionId;
    assert SessionExists(touched, locator.sessionId);
  }

  /** Those are calls that the manager makes. */
  lemma SharingIsProper(used: Threads, ours: (SessionKey, string), theirs: (SessionKey, string), thread: ThreadState)
    requires ours in used && theirs in used && ours.0 != theirs.0
    ensures AllProper(SqlAbs(NEW_TABLES), used, SharingCalls(ours, theirs, thread))
  {
    hide ThreadKey, Touched, WithRecord;
    var calls := SharingCalls(ours, theirs, thread);
    var a0 := SqlAbs(NEW_TABLES);
    var a1 := Act(a0, calls[0]).0;
    var a2 := Act(a1, calls[1]).0;
    var a3 := Act(a2, calls[2]).0;
    assert a1.sessions == map[ours.0 := SessionRecord(0, 0, 0)];
    assert theirs.0 in a2.sessions && a2.sessions[theirs.0].id == 1 && ours.0 in a2.sessions
           && a2.sessions[ours.0].id == 0;
    assert Proper(a0, used, calls[0]) && Proper(a1, used, calls[1]) && Proper(a2, used, calls[2]);
    TouchKeepsIds(a2.sessions, ours.0, 0, theirs.0);
    assert Proper(a3, used, calls[3]);
    ProperFour(a0, used, calls[0], calls[1], calls[2], calls[3]);
  }

  lemma TouchKeepsIds(sessions: map<SessionKey, SessionRecord>, key: SessionKey, now: int, other: SessionKey)
    requires other in sessions
    ensures other in Touched(sessions, key, now) && Touched(sessions, key, now)[other].id == sessions[other].id
  {
  }

  lemma ProperFour(a: Store, used: Threads, w: Call, x: Call, y: Call, z: Call)
    requires Proper(a, used, w) && Proper(Act(a, w).0, used, x) && Proper(Act(Act(a, w).0, x).0, used, y)
    requires Proper(Act(Act(Act(a, w).0, x).0, y).0, used, z)
    ensures AllProper(a, used, [w, x, y, z])
  {
    hide Act, Proper;
    assert [w, x, y, z][1..] == [x, y, z] && [x, y, z][1..] == [y, z] && [y, z][1..] == [z] && [z][1..] == [];
    var a1 := Act(a, w).0;
    var a2 := Act(a1, x).0;
    var a3 := Act(a2, y).0;
    assert AllProper(Act(a3, z).0, used, []);
    assert AllProper(a3, used, [z]);
    assert AllProper(a2, used, [y, z]);
    assert AllProper(a1, used, [x, y, z]);
  }

  /** One session's threads never share an id. */
  lemma OneSessionSharesNothing(key: SessionKey, e1: string, e2: string)
    requires ThreadKey(key, e1) == ThreadKey(key, e2)
    ensures e1 == e2
  {
    var n := |key.userId + ":" + key.channel + ":"|;
    assert ThreadKey(key, e1)[n..] == e1 && ThreadKey(key, e2)[n..] == e2;
  }

  /**
   * The two stores agree on every run of the manager from new, over a given set of threads, exactly when no
   * two of them share an id.
   */
  lemma AgreeExactly(used: Threads)
    ensures (forall calls | AllProper(SqlAbs(NEW_TABLES), used, calls) ::
               MemoryAll(NEW_MEMORY, calls).1 == SqlAll(NEW_TABLES, calls).1)
       <==> NoSharing(used)
  {
    hide ThreadKey, AllProper, MemoryAll, SqlAll, TablesOk, SharingCalls;
    if NoSharing(used) {
      forall calls | AllProper(SqlAbs(NEW_TABLES), used, calls)
        ensures MemoryAll(NEW_MEMORY, calls).1 == SqlAll(NEW_TABLES, calls).1
      {
        NewStoresAgree(used);
        StoresAgree(NEW_MEMORY, NEW_TABLES, used, calls);
      }
    } else {
      var u, v :| u in used && v in used && ThreadKey(u.0, u.1) == ThreadKey(v.0, v.1) && u != v;
      if u.0 == v.0 {
        OneSessionSharesNothing(u.0, u.1, v.1);
      }
      SharingIsProper(used, u, v, EMPTY_THREAD);
      SharedIdsDiverge(u, v, EMPTY_THREAD);
    }
  }

  // ---- The stores, updated in place ----------------------------------------------------------------

  class MemorySessionStore {
    var sessions: map<SessionKey, SessionRecord>
    var threads: map<string, ThreadState>
    var externalMessages: map<(string, string), DedupRecord>

    function View(): MemoryState
      reads this
    {
      MemoryState(sessions, threads, externalMessages)
    }

    constructor ()
      ensures View() == NEW_MEMORY
    {
      sessions, threads, externalMessages := map[], map[], map[];
    }

    method ResolveOrCreateSession(key: SessionKey, freshId: nat, now: int) returns (record: SessionRecord)
      modifies this
      ensures (View(), SessionReply(Some(record))) == MemoryAct(old(View()), ResolveOrCreate(key, freshId, now))
    {
      if key !in sessions {
        sessions := sessions[key := SessionRecord(freshId, now, now)];
      }
      record := sessions[key].(updatedAt := now);
      sessions := sessions[key := record];
      assert sessions == old(sessions)[key := record];
    }

    method LoadThreadContext(locator: ThreadLocator) returns (thread: Option<ThreadState>)
      ensures (View(), ThreadReply(thread)) == MemoryAct(View(), LoadThread(locator))
    {
      thread := if ThreadId(locator) in threads then Some(threads[ThreadId(locator)]) else None;
    }

    method SaveThreadContext(locator: ThreadLocator, thread: ThreadState, now: int, record: Option<DedupRecord>)
      returns (reply: Reply)
      modifies this
      ensures (View(), reply) == MemoryAct(old(View()), SaveThread(locator, thread, now, record))
    {
      hide ThreadKey;
      var id := ThreadId(locator);
      var actual := if id in threads then threads[id].revision else 0;
      if locator.key !in sessions {
        return CallFailed;
      }
      if thread.revision != actual {
        return RevisionMismatch(thread.revision, actual);
      }
      threads := threads[id := thread.(revision := actual + 1)];
      sessions := sessions[locator.key := sessions[locator.key].(updatedAt := now)];
      if record.Some? {
        externalMessages := externalMessages[(id, record.value.externalMessageId) := record.value];
      }
      reply := SavedAs(actual + 1);
    }

    method SaveExternalMessageRecord(locator: ThreadLocator, record: DedupRecord)
      modifies this
      ensures (View(), Done) == MemoryAct(old(View()), SaveExternal(locator, record))
    {
      externalMessages := externalMessages[(ThreadId(locator), record.externalMessageId) := record];
    }
  }

  class SqliteSessionStore {
    var tables: Tables

    constructor ()
      ensures tables == NEW_TABLES
    {
      tables := NEW_TABLES;
    }

    method ResolveOrCreateSession(key: SessionKey, freshId: nat, now: int) returns (record: Option<SessionRecord>)
      modifies this
      ensures (tables, if record.Some? then SessionReply(record) else CallFailed)
              == SqlAct(old(tables), ResolveOrCreate(key, freshId, now))
    {
      if key in tables.sessionMetadata {
        var existing := tables.sessionMetadata[key];
        tables := tables.(sessionMetadata := TouchById(tables.sessionMetadata, existing.id, now));
        return Some(existing.(updatedAt := now));
      }
      if SessionExists(tables, freshId) {
        return None;
      }
      var inserted := SessionRecord(freshId, now, now);
      tables := tables.(sessionMetadata := tables.sessionMetadata[key := inserted]);
      record := Some(inserted);
    }

    method LoadThreadContext(locator: ThreadLocator) returns (thread: Option<ThreadState>)
      ensures (tables, ThreadReply(thread)) == SqlAct(tables, LoadThread(locator))
    {
      var id := ThreadId(locator);
      if id in tables.threadMetadata && tables.threadMetadata[id].sessionId == locator.sessionId {
        return Some(tables.threadMetadata[id].snapshot.(revision := tables.threadMetadata[id].revision));
      }
      thread := None;
    }

    /** One transaction: nothing is written unless every statement succeeds. */
    method SaveThreadContext(locator: ThreadLocator, thread: ThreadState, now: int, record: Option<DedupRecord>)
      returns (reply: Reply)
      modifies this
      ensures (tables, reply) == SqlAct(old(tables), SaveThread(locator, thread, now, record))
    {
      hide ThreadKey, SessionExists, UniquePair, TouchById;
      var id, transaction := ThreadId(locator), tables;
      var actual := if id in transaction.threadMetadata then transaction.threadMetadata[id].revision else 0;
      if actual != thread.revision {
        return RevisionMismatch(thread.revision, actual);
      }
      transaction := transaction.(sessionMetadata := TouchById(transaction.sessionMetadata, locator.sessionId, now));
      var written := WriteThread(transaction, locator, thread, actual);
      if written.None? {
        return CallFailed;
      }
      transaction := written.value;
      if record.Some? {
        var bound := Upsert(transaction, id, record.value);
        if bound.None? {
          return CallFailed;
        }
        transaction := bound.value;
      }
      tables := transaction;
      reply := SavedAs(actual + 1);
    }

    method SaveExternalMessageRecord(locator: ThreadLocator, record: DedupRecord) returns (reply: Reply)
      modifies this
      ensures (tables, reply) == SqlAct(old(tables), SaveExternal(locator, record))
    {
      var bound := Upsert(tables, ThreadId(locator), record);
      if bound.None? {
        return CallFailed;
      }
      tables := bound.value;
      reply := Done;
    }
  }
}
