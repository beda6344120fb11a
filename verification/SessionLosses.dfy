/** Edits whose save was refused, and exactly when they are lost. */
module SessionLosses {
  import opened Wrappers
  import opened ThreadAggregate
  import opened SessionProtocol
  import opened SessionRuns

  // ---- Every edit is older than the next stamp -------------------------------------------------

  predicate Below(edits: seq<Edit>, stamps: nat) {
    forall i | 0 <= i < |edits| :: edits[i].stamp < stamps
  }

  predicate HasCopy(a: Agent) {
    !a.Idle? && !a.Locked?
  }

  predicate StampsOk(s: State) {
    && (forall i | 0 <= i < |s.versions| :: Below(s.versions[i], s.stamps))
    && (s.cache.Some? ==> Below(s.cache.value.edits, s.stamps))
    && forall k | 0 <= k < |s.agents| && HasCopy(s.agents[k]) :: Below(s.agents[k].copy.edits, s.stamps)
  }

  lemma BelowMore(edits: seq<Edit>, op: Op, stamps: nat)
    requires Below(edits, stamps)
    ensures Below(edits + [Edit(op, stamps)], stamps + 1) && Below(edits, stamps + 1)
  {
  }

  lemma LaterStamps(s: State, stamps: nat)
    requires StampsOk(s) && s.stamps <= stamps
    ensures StampsOk(s.(stamps := stamps))
  {
  }

  lemma NextStamps(s: State, move: Move)
    requires StampsOk(s)
    ensures StampsOk(Next(s, move)) && s.stamps <= Next(s, move).stamps
  {
    hide Below;
    if Enabled(s, move) {
      var a := s.agents[move.agent];
      NothingBelow(s.stamps);
      match move.action
      case EditCopy(op) =>
        LaterStamps(s, s.stamps + 1);
        BelowMore(a.copy.edits, op, s.stamps);
      case EditLocked(op) =>
        LaterStamps(s, s.stamps + 1);
        BelowMore(s.cache.value.edits, op, s.stamps);
      case Fetch => assert s.versions != [] ==> Below(s.versions[|s.versions| - 1], s.stamps);
      case _ =>
    }
  }

  lemma NothingBelow(stamps: nat)
    ensures Below([], stamps)
  {
  }

  /** Over any run, every edit is older than the next stamp. */
  lemma {:induction false} ExecStamps(s: State, moves: seq<Move>)
    requires StampsOk(s)
    ensures StampsOk(Exec(s, moves))
    decreases |moves|
  {
    hide StampsOk, Next;
    if moves != [] {
      NextStamps(s, moves[0]);
      ExecStamps(Next(s, moves[0]), moves[1..]);
    }
  }

  // ---- Edits that no later version has ---------------------------------------------------------

  /** `edits` goes on from `base` with edits made since the stamp `since`. */
  predicate Continues(edits: seq<Edit>, base: seq<Edit>, since: nat) {
    base <= edits && forall i | |base| <= i < |edits| :: edits[i].stamp >= since
  }

  /** Everything that is or can become version n or a later one goes on from version n. */
  predicate Inherits(s: State, n: nat, base: seq<Edit>, since: nat) {
    && 0 < n <= |s.versions| && since <= s.stamps
    && (forall i | n - 1 <= i < |s.versions| :: Continues(s.versions[i], base, since))
    && (s.cache.Some? && s.cache.value.revision >= n ==> Continues(s.cache.value.edits, base, since))
    && forall k | 0 <= k < |s.agents| && s.agents[k].Holding? && s.agents[k].copy.revision >= n ::
         Continues(s.agents[k].copy.edits, base, since)
  }

  lemma ContinuesMore(edits: seq<Edit>, base: seq<Edit>, since: nat, e: Edit)
    requires Continues(edits, base, since) && since <= e.stamp
    ensures Continues(edits + [e], base, since)
  {
  }

  lemma NextInherits(s: State, move: Move, n: nat, base: seq<Edit>, since: nat)
    requires Inv(s) && Inherits(s, n, base, since)
    ensures Inherits(Next(s, move), n, base, since)
  {
    hide Continues, Chain, Derives, VersionAt, GapOk;
    if Enabled(s, move) {
      assert AgentOk(s, move.agent);
      var a := s.agents[move.agent];
      match move.action
      case EditCopy(op) =>
        if a.copy.revision >= n {
          ContinuesMore(a.copy.edits, base, since, Edit(op, s.stamps));
        }
      case EditLocked(op) =>
        if s.cache.value.revision >= n {
          ContinuesMore(s.cache.value.edits, base, since, Edit(op, s.stamps));
        }
      case _ =>
    }
  }

  lemma {:induction false} ExecInherits(s: State, moves: seq<Move>, n: nat, base: seq<Edit>, since: nat)
    requires Inv(s) && Inherits(s, n, base, since)
    ensures Inherits(Exec(s, moves), n, base, since)
    decreases |moves|
  {
    hide Inv, Inherits, Next;
    if moves != [] {
      NextInherits(s, moves[0], n, base, since);
      NextKeeps(s, moves[0]);
      ExecInherits(Next(s, moves[0]), moves[1..], n, base, since);
    }
  }

  lemma ContinuesHas(edits: seq<Edit>, base: seq<Edit>, since: nat, d: seq<Edit>)
    requires Continues(edits, base, since) && Below(d, since)
    ensures d <= edits <==> d <= base
  {
    if |base| < |d| <= |edits| {
      assert d[|base|].stamp < since <= edits[|base|].stamp;
    }
  }

  /**
   * Once some writer has saved and not yet refreshed the cache, a list of edits made before then is
   * in a later version exactly when it is in the version just saved.
   */
  lemma LaterVersions(s: State, d: seq<Edit>, moves: seq<Move>)
    requires Inv(s) && OnePending(s) && Below(d, s.stamps)
    ensures var n, t := |s.versions|, Exec(s, moves);
            && 0 < n <= |t.versions|
            && forall i | n - 1 <= i < |t.versions| :: d <= t.versions[i] <==> d <= s.versions[n - 1]
  {
    hide Below, Continues, Exec, Derives, Chain;
    var n, t := |s.versions|, Exec(s, moves);
    NoneIsNotOne(s);
    var p: nat :| OnlyPending(s, p);
    assert AgentOk(s, p);
    var base := s.versions[n - 1];
    ContinuesItself(base, s.stamps);
    forall k | 0 <= k < |s.agents| && s.agents[k].Holding? ensures s.agents[k].copy.revision < n {
      assert AgentOk(s, k);
    }
    ExecInherits(s, moves, n, base, s.stamps);
    forall i | n - 1 <= i < |t.versions| ensures d <= t.versions[i] <==> d <= base {
      ContinuesHas(t.versions[i], base, s.stamps, d);
    }
  }

  lemma ContinuesItself(base: seq<Edit>, since: nat)
    ensures Continues(base, base, since)
  {
  }

  /**
   * While a snapshot writer is between its save and its refresh, the edits behind the guard are in
   * some later version exactly when that writer's copy has them, whatever anyone does from then on.
   */
  lemma UnsavedEditsLost(s: State, p: nat, moves: seq<Move>)
    requires Inv(s) && StampsOk(s) && OnlyPending(s, p) && s.agents[p].Saved?
    ensures var d, n, t := s.cache.value.edits, |s.versions|, Exec(s, moves);
            && n <= |t.versions|
            && (forall i | n <= i < |t.versions| :: d <= t.versions[i] <==> d <= s.agents[p].copy.edits)
  {
    hide Exec, Below, Derives, Chain;
    assert AgentOk(s, p);
    LaterVersions(s, s.cache.value.edits, moves);
  }

  /** The refresh itself then takes them out of the cache. */
  lemma RefreshDrops(s: State, p: nat)
    requires Inv(s) && OnlyPending(s, p) && s.agents[p].Saved? && s.lock.None?
    ensures var t := Next(s, Move(p, Sync));
            && t.cache == Some(s.agents[p].copy)
            && (s.cache.value.edits <= t.cache.value.edits <==> s.cache.value.edits <= s.agents[p].copy.edits)
  {
  }

  /**
   * A guard edit refused by a failing store with nobody pending stays in the cache until some save
   * is accepted; from then on it is in every later version or in none, as it is in that first one.
   */
  lemma {:induction false} FailedStoreKeeps(s: State, d: seq<Edit>, moves: seq<Move>)
    requires Inv(s) && NonePending(s) && Below(d, s.stamps) && d <= s.cache.value.edits
    ensures var n, t := |s.versions|, Exec(s, moves);
            && n <= |t.versions| && t.cache.Some?
            && (|t.versions| == n ==> d <= t.cache.value.edits)
            && forall i | n <= i < |t.versions| :: d <= t.versions[i] <==> d <= t.versions[n]
    decreases |moves|
  {
    hide Below, Derives, Chain, AgentsOk, Next;
    if moves != [] {
      var s1 := Next(s, moves[0]);
      NextKeeps(s, moves[0]);
      QuietStep(s, moves[0]);
      BelowLater(d, s.stamps, s1.stamps);
      if s1.versions == s.versions {
        FailedStoreKeeps(s1, d, moves[1..]);
      } else {
        LaterVersions(s1, d, moves[1..]);
        SavedStays(s1, moves[1..], |s.versions|);
        CacheStays(s1, moves[1..]);
      }
    }
  }

  lemma BelowLater(d: seq<Edit>, stamps: nat, later: nat)
    requires Below(d, stamps) && stamps <= later
    ensures Below(d, later)
  {
  }

  /**
   * With nobody pending a step either saves, making its writer the pending one, or leaves the cache's edits
   * in place.
   */
  lemma QuietStep(s: State, move: Move)
    requires Inv(s) && NonePending(s)
    ensures var t := Next(s, move);
            && s.stamps <= t.stamps && t.cache.Some?
            && (t.versions == s.versions ==> NonePending(t) && s.cache.value.edits <= t.cache.value.edits)
            && (t.versions != s.versions ==> |t.versions| == |s.versions| + 1 && OnePending(t))
  {
    hide Chain, Derives, VersionAt, GapOk;
    if Enabled(s, move) {
      assert AgentOk(s, move.agent);
      var t := Perform(s, move);
      if t.versions != s.versions {
        assert OnlyPending(t, move.agent);
      }
    }
  }

  lemma SavedStays(s: State, moves: seq<Move>, i: nat)
    requires Inv(s) && i < |s.versions|
    ensures i < |Exec(s, moves).versions| && Exec(s, moves).versions[i] == s.versions[i]
  {
    hide Inv, Exec;
    VersionsGrow(s, moves);
  }

  lemma CacheStays(s: State, moves: seq<Move>)
    requires Inv(s)
    ensures Exec(s, moves).cache.Some?
  {
    hide Exec, Chain, Derives, AgentsOk, GapOk;
    ExecKeeps(s, moves);
  }

  /** The guard's own save, once accepted, has every edit behind the guard; a failing store changes nothing. */
  lemma GuardRetries(s: State, k: nat)
    requires Inv(s) && k < |s.agents| && s.agents[k].Locked?
    ensures Next(s, Move(k, SaveLocked(true))) == s
    ensures NonePending(s) ==> Next(s, Move(k, SaveLocked(false))).versions == s.versions + [s.cache.value.edits]
  {
    hide Chain, Derives, AgentsOk;
    LockedSaveAccepted(s, k);
  }

  // ---- One schedule that loses an edit ---------------------------------------------------------

  const NEW_THREAD := State([], Some(Copy(0, [])), None, [Idle, Idle], false, 0)

  /** One agent loads, edits and saves; before it refreshes the cache another edits behind the guard and is refused. */
  function TheirMoves(theirs: Op): seq<Move> {
    [Move(0, Load), Move(0, EditCopy(theirs)), Move(0, SaveCopy(false))]
  }

  function MyMoves(mine: Op): seq<Move> {
    [Move(1, Lock), Move(1, EditLocked(mine)), Move(1, SaveLocked(false)), Move(1, Unlock)]
  }

  function Refused(mine: Op, theirs: Op): State {
    State([[Edit(theirs, 0)]], Some(Copy(0, [Edit(mine, 1)])), None, [Saved(Copy(1, [Edit(theirs, 0)])), Idle], true, 2)
  }

  lemma FirstThree(op: Op)
    ensures Exec(NEW_THREAD, TheirMoves(op))
         == State([[Edit(op, 0)]], Some(Copy(0, [])), None, [Saved(Copy(1, [Edit(op, 0)])), Idle], false, 1)
  {
    ExecThree(NEW_THREAD, Move(0, Load), Move(0, EditCopy(op)), Move(0, SaveCopy(false)));
    assert [] + [Edit(op, 0)] == [Edit(op, 0)];
  }

  lemma LastFour(mine: Op, theirs: Op)
    ensures var s := State([[Edit(theirs, 0)]], Some(Copy(0, [])), None, [Saved(Copy(1, [Edit(theirs, 0)])), Idle],
                           false, 1);
            Exec(s, MyMoves(mine)) == Refused(mine, theirs)
  {
    var s := State([[Edit(theirs, 0)]], Some(Copy(0, [])), None, [Saved(Copy(1, [Edit(theirs, 0)])), Idle], false, 1);
    assert [] + [Edit(mine, 1)] == [Edit(mine, 1)];
    ExecFour(s, Move(1, Lock), Move(1, EditLocked(mine)), Move(1, SaveLocked(false)), Move(1, Unlock));
  }

  /** The refused edit is in no version of any continuation of that schedule. */
  lemma UnsavedEditIsLost(mine: Op, theirs: Op, moves: seq<Move>)
    ensures Exec(Exec(NEW_THREAD, TheirMoves(theirs)), MyMoves(mine)) == Refused(mine, theirs)
    ensures var t := Exec(Refused(mine, theirs), moves);
            forall i | 0 <= i < |t.versions| :: !([Edit(mine, 1)] <= t.versions[i])
  {
    hide Exec, MyMoves, TheirMoves;
    FirstThree(theirs);
    LastFour(mine, theirs);
    RefusedIsReachable(mine, theirs);
    hide Inv;
    LaterVersions(Refused(mine, theirs), [Edit(mine, 1)], moves);
    NotSaved(mine, theirs);
  }

  lemma NotSaved(mine: Op, theirs: Op)
    ensures !([Edit(mine, 1)] <= [Edit(theirs, 0)])
  {
    assert [Edit(mine, 1)][0] != [Edit(theirs, 0)][0];
  }

  lemma RefusedIsReachable(mine: Op, theirs: Op)
    ensures Inv(Refused(mine, theirs)) && OnlyPending(Refused(mine, theirs), 0) && Below([Edit(mine, 1)], 2)
    ensures StampsOk(Refused(mine, theirs))
  {
    var s := Refused(mine, theirs);
    assert OnlyPending(s, 0);
    assert s.cache.value.edits != [];
  }
}
