/** What the session stores hold after any run of calls, told by the calls alone. */
module StoreHistories {
  import opened Wrappers
  import opened ThreadAggregate
  import opened SessionStores

  // ---- Threads: the last accepted save, under the number of saves --------------------------------

  /** The threads whose saves under this id were accepted, in order. */
  function SavedUnder(a: Store, calls: seq<Call>, id: string): seq<ThreadState>
    decreases |calls|
  {
    if calls == [] then []
    else
      var call, (next, reply) := calls[0], Act(a, calls[0]);
      (if call.SaveThread? && ThreadId(call.locator) == id && reply.SavedAs? then [call.thread] else [])
      + SavedUnder(next, calls[1..], id)
  }

  /** What is left of a thread that was saved: all but its open turn and its pending tool events. */
  function Kept(t: ThreadState, revision: nat): ThreadState {
    ThreadState(t.messages, t.toolsets, t.toolEvents, t.autoCompact, [], None, revision)
  }

  lemma {:induction false} LastSaved(a: Store, calls: seq<Call>, id: string)
    ensures var b, saved := ActAll(a, calls).0, SavedUnder(a, calls, id);
            && RevisionIn(b, id) == RevisionIn(a, id) + |saved|
            && (saved == [] ==> (id in b.threads <==> id in a.threads)
                                && (id in a.threads ==> b.threads[id] == a.threads[id]))
            && (saved != [] ==>
                  && id in b.threads
                  && b.threads[id].snapshot.(revision := RevisionIn(b, id))
                     == Kept(saved[|saved| - 1], RevisionIn(a, id) + |saved|))
    decreases |calls|
  {
    hide ThreadKey, WithRecord, Touched;
    if calls != [] {
      LastSaved(Act(a, calls[0]).0, calls[1..], id);
    }
  }

  /**
   * After any calls on a new store, a thread loads as it was in its last accepted save, under the number of
   * its saves; and it is saved next exactly from that revision.
   */
  lemma LoadsLastSaved(calls: seq<Call>, locator: ThreadLocator, thread: ThreadState, now: int,
      record: Option<DedupRecord>)
    ensures var a, saved := ActAll(NEW_STORE, calls).0, SavedUnder(NEW_STORE, calls, ThreadId(locator));
            && Act(a, LoadThread(locator)).1
               == ThreadReply(if saved == [] then None else Some(Kept(saved[|saved| - 1], |saved|)))
            && Act(a, SaveThread(locator, thread, now, record)).1
               == if thread.revision == |saved| then SavedAs(|saved| + 1)
                  else RevisionMismatch(thread.revision, |saved|)
  {
    hide ThreadKey, SavedUnder, ActAll, WithRecord, Touched;
    LastSaved(NEW_STORE, calls, ThreadId(locator));
  }

  // ---- Dedup records: the last one taken ---------------------------------------------------------

  /** The dedup records taken in for one external message of a thread, with an accepted save or on their own. */
  function TakenUnder(a: Store, calls: seq<Call>, id: string, externalMessageId: string): seq<DedupRecord>
    decreases |calls|
  {
    if calls == [] then []
    else
      var record := TakenBy(a, calls[0], id);
      (if record.Some? && record.value.externalMessageId == externalMessageId then [record.value] else [])
      + TakenUnder(Act(a, calls[0]).0, calls[1..], id, externalMessageId)
  }

  function TakenBy(a: Store, call: Call, id: string): Option<DedupRecord> {
    if call.SaveThread? && ThreadId(call.locator) == id && Act(a, call).1.SavedAs? then call.dedupRecord
    else if call.SaveExternal? && ThreadId(call.locator) == id then Some(call.dedup)
    else None
  }

  lemma OneTaken(a: Store, call: Call, id: string, externalMessageId: string)
    ensures var b, record, k := Act(a, call).0, TakenBy(a, call, id), (id, externalMessageId);
            if record.Some? && record.value.externalMessageId == externalMessageId then
              k in b.dedup && b.dedup[k] == record.value
            else (k in b.dedup <==> k in a.dedup) && (k in a.dedup ==> b.dedup[k] == a.dedup[k])
  {
    hide ThreadKey, Touched, AsStored;
  }

  lemma {:induction false} LastTaken(a: Store, calls: seq<Call>, id: string, externalMessageId: string)
    ensures var b, taken, k := ActAll(a, calls).0, TakenUnder(a, calls, id, externalMessageId), (id, externalMessageId);
            if taken != [] then k in b.dedup && b.dedup[k] == taken[|taken| - 1]
            else (k in b.dedup <==> k in a.dedup) && (k in a.dedup ==> b.dedup[k] == a.dedup[k])
    decreases |calls|
  {
    hide Act, TakenBy;
    if calls != [] {
      OneTaken(a, calls[0], id, externalMessageId);
      LastTaken(Act(a, calls[0]).0, calls[1..], id, externalMessageId);
    }
  }

  /** After any calls on a new store, a processed message is found under the last record taken in for it. */
  lemma FindsLastTaken(calls: seq<Call>, locator: ThreadLocator, externalMessageId: string)
    ensures var a, taken := ActAll(NEW_STORE, calls).0,
                            TakenUnder(NEW_STORE, calls, ThreadId(locator), externalMessageId);
            Act(a, LoadExternal(locator, externalMessageId)).1
            == ExternalReply(if taken == [] then None else Some(taken[|taken| - 1]))
  {
    hide ThreadKey, TakenUnder, ActAll, WithRecord, Touched;
    LastTaken(NEW_STORE, calls, ThreadId(locator), externalMessageId);
  }

  // ---- Sessions: as they were created, and when they were last used ------------------------------

  /** The id and the time that a session is created with: those of the first call that resolves it. */
  function CreatedBy(calls: seq<Call>, key: SessionKey): Option<(nat, int)>
    decreases |calls|
  {
    if calls == [] then None
    else if calls[0].ResolveOrCreate? && calls[0].key == key then Some((calls[0].freshId, calls[0].now))
    else CreatedBy(calls[1..], key)
  }

  /** The times at which the session, once it exists, is resolved or has a thread saved. */
  function UsesOf(a: Store, calls: seq<Call>, key: SessionKey): seq<int>
    decreases |calls|
  {
    if calls == [] then []
    else
      var call, (next, reply) := calls[0], Act(a, calls[0]);
      (if call.ResolveOrCreate? && call.key == key then [call.now]
       else if call.SaveThread? && call.locator.key == key && reply.SavedAs? && key in a.sessions then [call.now]
       else [])
      + UsesOf(next, calls[1..], key)
  }

  lemma {:induction false} SessionStays(a: Store, calls: seq<Call>, key: SessionKey)
    ensures var b, uses, created := ActAll(a, calls).0, UsesOf(a, calls, key), CreatedBy(calls, key);
            if key in a.sessions then
              && key in b.sessions
              && b.sessions[key] == a.sessions[key].(updatedAt := if uses == [] then a.sessions[key].updatedAt
                                                                  else uses[|uses| - 1])
            else if created.Some? then
              && uses != [] && key in b.sessions
              && b.sessions[key] == SessionRecord(created.value.0, created.value.1, uses[|uses| - 1])
            else uses == [] && key !in b.sessions
    decreases |calls|
  {
    hide ThreadKey, WithRecord, AsStored;
    if calls != [] {
      SessionStays(Act(a, calls[0]).0, calls[1..], key);
    }
  }

  /**
   * After any calls on a new store, a session has the id and creation time of the call that first resolved it, and
   * was updated when it was last resolved or a thread of it saved; a session never resolved is not there.
   */
  lemma SessionIsFirstResolved(calls: seq<Call>, key: SessionKey)
    ensures var a, uses, created := ActAll(NEW_STORE, calls).0, UsesOf(NEW_STORE, calls, key), CreatedBy(calls, key);
            && (created.Some? <==> uses != [])
            && Act(a, LoadSession(key)).1
               == SessionReply(if created.None? then None
                               else Some(SessionRecord(created.value.0, created.value.1, uses[|uses| - 1])))
  {
    hide ActAll, UsesOf, CreatedBy;
    SessionStays(NEW_STORE, calls, key);
  }

  const NEW_STORE := Store(map[], map[], map[])

  // ---- So do both stores -------------------------------------------------------------------------

  lemma {:induction false} ActLast(a: Store, calls: seq<Call>, last: Call)
    ensures |ActAll(a, calls + [last]).1| == |calls| + 1
    ensures ActAll(a, calls + [last]).1[|calls|] == Act(ActAll(a, calls).0, last).1
    decreases |calls|
  {
    hide Act;
    if calls == [] {
      assert [] + [last] == [last] && [last][1..] == [];
    } else {
      assert (calls + [last])[1..] == calls[1..] + [last];
      ActLast(Act(a, calls[0]).0, calls[1..], last);
    }
  }

  /** Memory and SQLite, new and given the same calls, load a thread as it was in its last accepted save. */
  lemma BothLoadLastSaved(used: Threads, calls: seq<Call>, locator: ThreadLocator)
    requires NoSharing(used) && AllProper(SqlAbs(NEW_TABLES), used, calls + [LoadThread(locator)])
    ensures var all, saved := calls + [LoadThread(locator)], SavedUnder(NEW_STORE, calls, ThreadId(locator));
            var memory, sql := MemoryAll(NEW_MEMORY, all).1, SqlAll(NEW_TABLES, all).1;
            && |memory| == |sql| == |calls| + 1
            && memory[|calls|] == sql[|calls|]
               == ThreadReply(if saved == [] then None else Some(Kept(saved[|saved| - 1], |saved|)))
  {
    hide ThreadKey, NoSharing, AllProper, MemoryAll, SqlAll, ActAll, Act, TablesOk, SavedUnder;
    var load := LoadThread(locator);
    NewStoresAgree(used);
    assert SqlAbs(NEW_TABLES) == NEW_STORE;
    StoresAgree(NEW_MEMORY, NEW_TABLES, used, calls + [load]);
    ActLast(NEW_STORE, calls, load);
    LoadsLastSaved(calls, locator, EMPTY_THREAD, 0, None);
  }
}
