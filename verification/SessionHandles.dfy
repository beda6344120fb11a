/**
 * Threads that start without a cached handle: when the cache can fall behind for good, and that it agrees
 * otherwise.
 */
module SessionHandles {
  import opened Wrappers
  import opened ThreadAggregate
  import opened SessionProtocol
  import opened SessionRuns

  // ---- A cache that is behind for good ---------------------------------------------------------

  /** A cache that trails the store with nobody left to refresh it, and no copy anywhere that the store would accept. */
  predicate Stale(s: State) {
    && s.cache.Some? && s.cache.value.revision < |s.versions|
    && forall k | 0 <= k < |s.agents| ::
         var a := s.agents[k];
         !Pending(a) && (a.Holding? ==> a.copy.revision < |s.versions|)
  }

  lemma StaleStep(s: State, move: Move)
    requires Stale(s)
    ensures Stale(Next(s, move)) && Next(s, move).versions == s.versions
  {
    if Enabled(s, move) {
      var a := s.agents[move.agent];
    }
  }

  /** Once the cache is stale no save is accepted ever again, whoever tries and however the store answers. */
  lemma {:induction false} StaleForever(s: State, moves: seq<Move>)
    requires Stale(s)
    ensures Stale(Exec(s, moves)) && Exec(s, moves).versions == s.versions
    decreases |moves|
  {
    hide Next, Stale;
    if moves != [] {
      StaleStep(s, moves[0]);
      StaleForever(Next(s, moves[0]), moves[1..]);
    }
  }

  /**
   * The cache agrees with the store: it trails by one save exactly while one writer is pending, and differs
   * only by unsaved edits.
   */
  ghost predicate CacheAgrees(s: State)
    requires s.cache.Some?
  {
    var c, n := s.cache.value, |s.versions|;
    && c.revision <= n <= c.revision + 1
    && (c.revision < n <==> OnePending(s))
    && (NonePending(s) ==> c.revision == n && (c.edits == VersionAt(s.versions, n) <==> !s.dirty))
  }

  /** A thread that nobody holds and that is not in the cache. */
  predicate Uncached(s: State) {
    && s.cache.None? && s.lock.None? && !s.dirty && Chain(s.versions)
    && forall k | 0 <= k < |s.agents| :: s.agents[k].Idle?
  }

  // ---- A thread that was saved before ------------------------------------------------------------

  function Latest(s: State): Copy {
    Copy(|s.versions|, VersionAt(s.versions, |s.versions|))
  }

  /** Some agents have read the latest version of a saved thread, and none has put it in the cache yet. */
  predicate Waiting(s: State) {
    && s.versions != [] && s.cache.None? && s.lock.None? && !s.dirty && Chain(s.versions)
    && forall k | 0 <= k < |s.agents| :: s.agents[k].Idle? || s.agents[k] == Fetched(Latest(s))
  }

  /** The state with what the late agents have read left out: once the cache is filled it no longer matters. */
  function Blank(s: State): State {
    s.(agents := seq(|s.agents|, k requires 0 <= k < |s.agents| => if s.agents[k].Fetched? then Idle else s.agents[k]))
  }

  /** The cached protocol holds, late readers aside. */
  ghost predicate Served(s: State) {
    Inv(Blank(s))
  }

  lemma BlankStep(s: State, move: Move)
    requires s.cache.Some? && Enabled(s, move) && !s.agents[move.agent].Fetched?
    ensures Enabled(Blank(s), move) && Perform(Blank(s), move) == Blank(Perform(s, move))
  {
    assert Blank(s).agents[move.agent] == s.agents[move.agent];
    assert Perform(Blank(s), move).agents == Blank(Perform(s, move)).agents;
  }

  lemma LateInsert(s: State, move: Move)
    requires s.cache.Some? && Enabled(s, move) && s.agents[move.agent].Fetched?
    ensures Blank(Perform(s, move)) == Blank(s)
  {
    assert Blank(Perform(s, move)).agents == Blank(s).agents;
  }

  lemma NextServed(s: State, move: Move)
    requires Served(s)
    ensures var t := Next(s, move);
            Served(t) && s.versions <= t.versions && t.cache.Some?
  {
    hide Inv, Perform, Enabled, Blank;
    ServedCaches(s);
    if Enabled(s, move) {
      EnabledAgent(s, move);
      if s.agents[move.agent].Fetched? {
        LateInsert(s, move);
      } else {
        BlankStep(s, move);
        NextKeeps(Blank(s), move);
        NextGrows(Blank(s), move);
      }
      BlankFrame(s);
      BlankFrame(Perform(s, move));
    }
  }

  lemma EnabledAgent(s: State, move: Move)
    requires Enabled(s, move)
    ensures move.agent < |s.agents|
  {
  }

  lemma BlankFrame(s: State)
    ensures var b := Blank(s);
            b.versions == s.versions && b.cache == s.cache && b.dirty == s.dirty && |b.agents| == |s.agents|
  {
  }

  lemma ServedCaches(s: State)
    requires Served(s)
    ensures s.cache.Some?
  {
  }

  lemma NextWaiting(s: State, move: Move)
    requires Waiting(s)
    ensures var t := Next(s, move);
            t.versions == s.versions && (Waiting(t) || Served(t))
  {
    hide Chain, VersionAt, Inv;
    if Enabled(s, move) && move.action.Insert? {
      var t := Next(s, move);
      assert Settled(Blank(t));
      SettledStarts(Blank(t));
    }
  }

  // ---- A thread that one agent alone works on ------------------------------------------------------

  /** At most one agent, and a thread that was not saved before it came: what it does until the cache is filled. */
  predicate Alone(s: State) {
    && |s.agents| <= 1 && s.cache.None? && s.lock.None? && !s.dirty && Chain(s.versions)
    && if s.agents == [] then s.versions == []
       else match s.agents[0]
            case Idle => s.versions == []
            case Fetched(c) => s.versions == [] && c == Copy(0, [])
            case Holding(c) => s.versions == [] && c.revision == 0
            case Saved(c) => c.revision == 1 && s.versions == [c.edits]
            case Missed(c) => c.revision == 1 && s.versions == [c.edits]
            case _ => false
  }

  lemma NextAlone(s: State, move: Move)
    requires Alone(s)
    ensures var t := Next(s, move);
            s.versions <= t.versions && (Alone(t) || Served(t))
  {
    hide Inv;
    if Enabled(s, move) {
      assert move.agent == 0;
      var t := Perform(s, move);
      if t.cache.Some? {
        assert Blank(t).agents == t.agents;
        assert Settled(Blank(t));
        SettledStarts(Blank(t));
      }
    }
  }

  // ---- Agreement -----------------------------------------------------------------------------------

  /** While the cache is empty the run is one of the two above; once it is filled the cached protocol holds. */
  ghost predicate Follows(s: State) {
    Waiting(s) || Alone(s) || Served(s)
  }

  lemma NextFollows(s: State, move: Move)
    requires Follows(s)
    ensures Follows(Next(s, move)) && s.versions <= Next(s, move).versions
  {
    hide Waiting, Alone, Served, Next;
    if Served(s) {
      NextServed(s, move);
    } else if Waiting(s) {
      NextWaiting(s, move);
    } else {
      NextAlone(s, move);
    }
  }

  lemma {:induction false} ExecFollows(s: State, moves: seq<Move>)
    requires Follows(s)
    ensures Follows(Exec(s, moves)) && s.versions <= Exec(s, moves).versions
    decreases |moves|
  {
    hide Follows, Next;
    if moves != [] {
      NextFollows(s, moves[0]);
      ExecFollows(Next(s, moves[0]), moves[1..]);
    }
  }

  /** In the cached protocol the cache agrees with the store, and is never stale. */
  lemma CachedAgrees(s: State)
    requires Inv(s)
    ensures s.cache.Some? && Chain(s.versions) && CacheAgrees(s) && !Stale(s)
  {
    NoneIsNotOne(s);
    if !NonePending(s) {
      assert OnePending(s);
    }
  }

  lemma BlankAgrees(s: State)
    requires s.cache.Some? && CacheAgrees(Blank(s)) && !Stale(Blank(s))
    ensures CacheAgrees(s) && !Stale(s)
  {
    var b := Blank(s);
    assert forall k | 0 <= k < |s.agents| :: Pending(b.agents[k]) <==> Pending(s.agents[k]);
    if OnePending(b) {
      var p: nat :| OnlyPending(b, p);
      assert OnlyPending(s, p);
    }
    if OnePending(s) {
      var p: nat :| OnlyPending(s, p);
      assert OnlyPending(b, p);
    }
    assert NonePending(b) <==> NonePending(s);
  }

  lemma FollowsAgrees(s: State)
    requires Follows(s)
    ensures Chain(s.versions) && (s.cache.Some? ==> CacheAgrees(s)) && !Stale(s)
  {
    hide Inv, Blank, CacheAgrees, Chain;
    if s.cache.Some? {
      CachedAgrees(Blank(s));
      BlankFrame(s);
      BlankAgrees(s);
    } else if Served(s) {
      ServedCaches(s);
    }
  }

  /** The one start from which the cache can fall behind for good: a thread never saved, and two agents or more. */
  predicate Racy(s: State) {
    s.versions == [] && |s.agents| >= 2
  }

  /**
   * From every other uncached start the versions form a chain and the cache, once filled, agrees in every
   * reachable state.
   */
  lemma UncachedAgrees(s: State, moves: seq<Move>)
    requires Uncached(s) && !Racy(s)
    ensures var t := Exec(s, moves);
            && s.versions <= t.versions && Chain(t.versions)
            && (t.cache.Some? ==> CacheAgrees(t)) && !Stale(t)
  {
    hide Exec, Served, Chain;
    ExecFollows(s, moves);
    FollowsAgrees(Exec(s, moves));
  }

  // ---- The race ------------------------------------------------------------------------------------

  /**
   * One agent reads the empty store, another saves a new thread and finds nothing to refresh, the first
   * inserts what it read.
   */
  function RaceStart(op: Op): seq<Move> {
    [Move(0, Fetch), Move(1, Fresh), Move(1, EditCopy(op)), Move(1, SaveCopy(false))]
  }

  const RACE_END := [Move(1, Sync), Move(0, Insert), Move(1, SyncInsert)]

  lemma RaceReads(s: State)
    requires Uncached(s) && Racy(s)
    ensures Next(Next(s, Move(0, Fetch)), Move(1, Fresh))
         == s.(agents := s.agents[0 := Fetched(Copy(0, []))][1 := Holding(Copy(0, []))])
  {
  }

  lemma RaceWrites(s: State, op: Op)
    requires |s.agents| >= 2 && s.versions == [] && s.agents[1] == Holding(Copy(0, []))
    ensures Next(Next(s, Move(1, EditCopy(op))), Move(1, SaveCopy(false)))
         == s.(versions := [[Edit(op, s.stamps)]], stamps := s.stamps + 1,
               agents := s.agents[1 := Saved(Copy(1, [Edit(op, s.stamps)]))])
  {
    var e := Edit(op, s.stamps);
    assert [] + [e] == [e];
    assert s.agents[1 := Holding(Copy(0, [e]))][1 := Saved(Copy(1, [e]))] == s.agents[1 := Saved(Copy(1, [e]))];
  }

  lemma RaceSaves(s: State, op: Op)
    requires Uncached(s) && Racy(s)
    ensures Exec(s, RaceStart(op))
         == s.(versions := [[Edit(op, s.stamps)]], stamps := s.stamps + 1,
               agents := s.agents[0 := Fetched(Copy(0, []))][1 := Saved(Copy(1, [Edit(op, s.stamps)]))])
  {
    hide Next, Chain;
    ExecFour(s, Move(0, Fetch), Move(1, Fresh), Move(1, EditCopy(op)), Move(1, SaveCopy(false)));
    RaceReads(s);
    var reading := s.(agents := s.agents[0 := Fetched(Copy(0, []))][1 := Holding(Copy(0, []))]);
    RaceWrites(reading, op);
    var saved := Saved(Copy(1, [Edit(op, s.stamps)]));
    assert reading.agents[1 := saved] == s.agents[0 := Fetched(Copy(0, []))][1 := saved];
  }

  lemma RaceInserts(s: State, e: Edit)
    requires |s.agents| >= 2 && s.cache.None? && s.lock.None? && s.versions == [[e]]
    requires s.agents[0] == Fetched(Copy(0, [])) && s.agents[1] == Saved(Copy(1, [e]))
    ensures Exec(s, RACE_END)
         == s.(cache := Some(Copy(0, [])), dirty := false, agents := s.agents[0 := Idle][1 := Idle])
  {
    ExecThree(s, Move(1, Sync), Move(0, Insert), Move(1, SyncInsert));
    assert s.agents[1 := Missed(Copy(1, [e]))][0 := Idle][1 := Idle] == s.agents[0 := Idle][1 := Idle];
  }

  /** Without a cached handle, and with a second agent at a thread never saved before, the cache can go stale. */
  lemma UncachedHandleGoesStale(s: State, op: Op)
    requires Uncached(s) && Racy(s)
    ensures var t := Exec(Exec(s, RaceStart(op)), RACE_END);
            t.versions == [[Edit(op, s.stamps)]] && t.cache == Some(Copy(0, [])) && Stale(t)
  {
    hide Exec;
    RaceSaves(s, op);
    RaceInserts(Exec(s, RaceStart(op)), Edit(op, s.stamps));
  }

  lemma {:induction false} ExecAppend(s: State, a: seq<Move>, b: seq<Move>)
    ensures Exec(s, a + b) == Exec(Exec(s, a), b)
    decreases |a|
  {
    hide Next;
    if a == [] {
      assert a + b == b;
    } else {
      assert (a + b)[1..] == a[1..] + b;
      ExecAppend(Next(s, a[0]), a[1..], b);
    }
  }

  /**
   * An uncached thread's cache can go stale exactly when the thread was never saved and two agents or more
   * work on it.
   */
  lemma StaleExactly(s: State)
    requires Uncached(s)
    ensures (exists moves :: Stale(Exec(s, moves))) <==> Racy(s)
  {
    hide Exec, Stale, Uncached;
    if Racy(s) {
      UncachedHandleGoesStale(s, OpClear);
      ExecAppend(s, RaceStart(OpClear), RACE_END);
      assert Stale(Exec(s, RaceStart(OpClear) + RACE_END));
    } else {
      forall moves ensures !Stale(Exec(s, moves)) {
        UncachedAgrees(s, moves);
      }
    }
  }
}
