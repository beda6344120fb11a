/**
 * What every interleaving of session writers guarantees, where the guarantees stop, and the manager's
 * operations as they run.
 */
module SessionRuns {
  import opened Wrappers
  import opened ThreadAggregate
  import opened SessionProtocol

  // ---- Every run ----------------------------------------------------------------------------

  lemma NoneIsNotOne(s: State)
    ensures NonePending(s) ==> !OnePending(s)
  {
  }

  /**
   * A save is accepted only from a copy of the latest version, and then appends a version that
   * extends every earlier one by that copy's own edits; nothing else changes what is stored.
   */
  lemma NoLostUpdate(s: State, move: Move)
    requires Inv(s)
    ensures var versions, versions' := s.versions, Next(s, move).versions;
            versions' != versions ==>
              && (move.action.SaveCopy? || move.action.SaveLocked?) && Enabled(s, move)
              && var c := if move.action.SaveCopy? then s.agents[move.agent].copy else s.cache.value;
                 && c.revision == |versions| && versions' == versions + [c.edits]
                 && forall i | 0 <= i < |versions| :: versions[i] <= c.edits
  {
    if Enabled(s, move) && (move.action.SaveCopy? || move.action.SaveLocked?) {
      assert AgentOk(s, move.agent);
      var c := if move.action.SaveCopy? then s.agents[move.agent].copy else s.cache.value;
      if c.revision == |s.versions| {
        LatestPrefix(s.versions, c);
        assert forall i | 0 <= i < |s.versions| :: s.versions[i] <= s.versions[|s.versions| - 1];
      }
    }
  }

  /**
   * While an agent holds the guard, no steps of the others read or change what it guards: the cached thread and the
   * guard's agent stay as they are, and nobody who had no copy of the thread gets one.
   */
  lemma {:induction false} GuardExcludes(s: State, holder: nat, moves: seq<Move>)
    requires Inv(s) && s.lock == Some(holder) && holder < |s.agents|
    requires forall i | 0 <= i < |moves| :: moves[i].agent != holder
    ensures var t := Exec(s, moves);
            && t.cache == s.cache && t.lock == s.lock && t.dirty == s.dirty
            && |t.agents| == |s.agents| && t.agents[holder] == s.agents[holder]
            && forall k | 0 <= k < |s.agents| && s.agents[k].Idle? :: t.agents[k].Idle?
    decreases |moves|
  {
    if moves != [] {
      GuardExcludesNext(s, holder, moves[0]);
      NextKeeps(s, moves[0]);
      hide Inv, Next;
      GuardExcludes(Next(s, moves[0]), holder, moves[1..]);
    }
  }

  lemma GuardExcludesNext(s: State, holder: nat, move: Move)
    requires Inv(s) && s.lock == Some(holder) && holder < |s.agents| && move.agent != holder
    ensures var t := Next(s, move);
            && t.cache == s.cache && t.lock == s.lock && t.dirty == s.dirty
            && |t.agents| == |s.agents| && t.agents[holder] == s.agents[holder]
            && forall k | 0 <= k < |s.agents| && s.agents[k].Idle? :: t.agents[k].Idle?
  {
    if Enabled(s, move) {
      assert AgentOk(s, move.agent);
    }
  }

  lemma NextGrows(s: State, move: Move)
    requires Inv(s)
    ensures s.versions <= Next(s, move).versions
    ensures Next(s, move).cache.Some? && s.cache.value.revision <= Next(s, move).cache.value.revision
  {
    if Enabled(s, move) {
      assert AgentOk(s, move.agent);
    }
  }

  /**
   * Cache agreement and the linear chain of versions, in every state that any interleaving of
   * snapshot and locked writers reaches from a settled one.
   */
  lemma {:induction false} EveryInterleaving(s: State, moves: seq<Move>)
    requires Inv(s)
    ensures var t := Exec(s, moves);
            && t.cache.Some? && Chain(t.versions) && s.versions <= t.versions
            && s.cache.value.revision <= t.cache.value.revision <= |t.versions| <= t.cache.value.revision + 1
            && (t.cache.value.revision < |t.versions| <==> OnePending(t))
            && (NonePending(t) ==> t.cache.value.revision == |t.versions|)
            && (NonePending(t) ==> (t.cache.value.edits == VersionAt(t.versions, |t.versions|) <==> !t.dirty))
    decreases |moves|
  {
    hide Next, Derives, AgentsOk;
    if moves == [] {
      NoneIsNotOne(s);
    } else {
      NextKeeps(s, moves[0]);
      NextGrows(s, moves[0]);
      EveryInterleaving(Next(s, moves[0]), moves[1..]);
    }
  }

  /** Every live copy derives from the version that its revision names. */
  lemma EveryCopyDerives(s: State, moves: seq<Move>, k: nat)
    requires Inv(s) && k < |s.agents|
    ensures var t := Exec(s, moves);
            && t.cache.Some? && Derives(t.versions, t.cache.value)
            && |t.agents| == |s.agents|
            && (t.agents[k].Holding? || t.agents[k].Saved? || t.agents[k].LockedSaved?
                ==> Derives(t.versions, t.agents[k].copy))
  {
    hide Chain, GapOk, Exec;
    ExecKeeps(s, moves);
    SameAgents(s, moves);
    assert AgentOk(Exec(s, moves), k);
  }

  lemma {:induction false} SameAgents(s: State, moves: seq<Move>)
    ensures |Exec(s, moves).agents| == |s.agents|
    decreases |moves|
  {
    if moves != [] {
      SameAgents(Next(s, moves[0]), moves[1..]);
    }
  }

  // ---- Exactly when a save is refused ---------------------------------------------------------

  /**
   * A locked writer's save is refused, by a working store, exactly while a snapshot writer has yet to
   * refresh the cache.
   */
  lemma LockedSaveAccepted(s: State, k: nat)
    requires Inv(s) && k < |s.agents| && s.agents[k].Locked?
    ensures Accepts(s, s.cache.value, false) <==> NonePending(s)
  {
    NoneIsNotOne(s);
    if !NonePending(s) {
      assert OnePending(s);
    }
  }

  predicate Leaves(moves: seq<Move>, k: nat) {
    forall i | 0 <= i < |moves| :: moves[i].agent != k
  }

  lemma {:induction false} OthersLeave(s: State, moves: seq<Move>, k: nat)
    requires k < |s.agents| && Leaves(moves, k)
    ensures |Exec(s, moves).agents| == |s.agents| && Exec(s, moves).agents[k] == s.agents[k]
    decreases |moves|
  {
    if moves != [] {
      assert moves[0].agent != k;
      OthersLeave(Next(s, moves[0]), moves[1..], k);
    }
  }

  /**
   * A clone is saved, by a working store, exactly when nobody was between save and refresh as it
   * was loaded and nobody's save has been accepted since.
   */
  lemma LoadThenSave(s: State, k: nat, moves: seq<Move>)
    requires Inv(s) && Enabled(s, Move(k, Load)) && Leaves(moves, k)
    ensures var t := Exec(Perform(s, Move(k, Load)), moves);
            && |t.agents| == |s.agents| && t.agents[k] == Holding(s.cache.value)
            && (Accepts(t, t.agents[k].copy, false) <==> NonePending(s) && t.versions == s.versions)
  {
    hide Exec, Chain, Derives;
    var loaded := Perform(s, Move(k, Load));
    OthersLeave(loaded, moves, k);
    NextKeeps(s, Move(k, Load));
    VersionsGrow(loaded, moves);
    NoneIsNotOne(s);
    if !NonePending(s) {
      assert OnePending(s);
    }
  }

  lemma VersionsGrow(s: State, moves: seq<Move>)
    requires Inv(s)
    ensures s.versions <= Exec(s, moves).versions
  {
    EveryInterleaving(s, moves);
  }

  lemma ExecOne(s: State, a: Move)
    ensures Exec(s, [a]) == Next(s, a)
  {
    hide Next;
    assert [a][1..] == [];
  }

  lemma ExecTwo(s: State, a: Move, b: Move)
    ensures Exec(s, [a, b]) == Next(Next(s, a), b)
  {
    hide Next;
    assert [a, b][1..] == [b];
    ExecOne(Next(s, a), b);
  }

  lemma ExecThree(s: State, a: Move, b: Move, c: Move)
    ensures Exec(s, [a, b, c]) == Next(Next(Next(s, a), b), c)
  {
    hide Next;
    var s1, s2 := Next(s, a), Next(Next(s, a), b);
    assert [a, b, c][1..] == [b, c];
    assert [b, c][1..] == [c];
    assert [c][1..] == [];
    assert Exec(s2, [c]) == Next(s2, c);
    assert Exec(s1, [b, c]) == Exec(s2, [c]);
  }

  lemma ExecFour(s: State, a: Move, b: Move, c: Move, d: Move)
    ensures Exec(s, [a, b, c, d]) == Next(Next(Next(Next(s, a), b), c), d)
  {
    hide Next;
    assert [a, b, c, d][1..] == [b, c, d];
    ExecThree(Next(s, a), b, c, d);
  }

  // ---- The manager's operations, as they run -----------------------------------------------------

  lemma ExecSnoc(s: State, moves: seq<Move>, move: Move)
    ensures Exec(s, moves + [move]) == Next(Exec(s, moves), move)
    decreases |moves|
  {
    hide Next;
    if moves == [] {
      assert [move][1..] == [];
      assert moves + [move] == [move];
    } else {
      assert (moves + [move])[1..] == moves[1..] + [move];
      ExecSnoc(Next(s, moves[0]), moves[1..], move);
    }
  }

  function EditsBy(agent: nat, ops: seq<Op>): (moves: seq<Move>)
    ensures |moves| == |ops|
    ensures forall i | 0 <= i < |ops| :: moves[i] == Move(agent, EditLocked(ops[i]))
  {
    seq(|ops|, i requires 0 <= i < |ops| => Move(agent, EditLocked(ops[i])))
  }

  /** The session manager's view of one thread: its handle in the cache, the guard, and the store behind them. */
  class SessionManager {
    var versions: seq<seq<Edit>>
    var cached: Option<Copy>
    var guard: Option<nat>
    var agents: seq<Agent>
    var stamps: nat
    ghost var dirty: bool

    ghost function View(): State
      reads this
    {
      State(versions, cached, guard, agents, dirty, stamps)
    }

    constructor (count: nat)
      ensures View() == State([], None, None, seq(count, _ => Idle), false, 0)
    {
      versions, cached, guard, agents, dirty, stamps := [], None, None, seq(count, _ => Idle), false, 0;
    }

    /** `save_thread_snapshot`: compare-and-swap; the copy it returns carries the new revision. */
    method SaveThreadSnapshot(c: Copy, fails: bool) returns (saved: Option<Copy>)
      modifies this`versions
      ensures saved.Some? <==> Accepts(old(View()), c, fails)
      ensures saved.Some? ==>
                saved.value == c.(revision := |old(versions)| + 1) && versions == old(versions) + [c.edits]
      ensures saved.None? ==> versions == old(versions)
    {
      if fails || c.revision != |versions| {
        return None;
      }
      versions := versions + [c.edits];
      saved := Some(c.(revision := |versions|));
    }

    /** `ensure_thread_handle` and `cache_thread_handle_if_absent`, uninterrupted. */
    method EnsureThreadHandle(k: nat)
      requires k < |agents| && agents[k].Idle?
      modifies this
      ensures View() == Exec(old(View()), [Move(k, Fetch), Move(k, Insert)])
      ensures cached.Some?
    {
      ExecTwo(View(), Move(k, Fetch), Move(k, Insert));
      if cached.Some? {
        return;
      }
      var stored := Copy(|versions|, VersionAt(versions, |versions|));
      cached, dirty := Some(stored), false;
      assert agents[k := Fetched(stored)][k := Idle] == agents;
    }

    /** `store_thread_context` on a cached thread: save the clone, then overwrite the cache. */
    method StoreThreadContext(k: nat, fails: bool) returns (ok: bool)
      requires k < |agents| && agents[k].Holding? && cached.Some? && guard.None?
      modifies this
      ensures View() == Exec(old(View()), [Move(k, SaveCopy(fails)), Move(k, Sync)])
      ensures ok ==> cached == Some(old(agents)[k].copy.(revision := |versions|))
      ensures ok ==> versions == old(versions) + [old(agents)[k].copy.edits]
      ensures !ok ==> View() == old(View())
    {
      ExecTwo(View(), Move(k, SaveCopy(fails)), Move(k, Sync));
      var saved := SaveThreadSnapshot(agents[k].copy, fails);
      if saved.None? {
        return false;
      }
      agents := agents[k := Saved(saved.value)];
      cached, dirty := saved, false;
      agents := agents[k := Idle];
      ok := true;
    }

    /** `persist_locked_thread_context`: save a clone of the guarded thread, then refresh the guard. */
    method PersistLocked(k: nat, fails: bool) returns (ok: bool)
      requires k < |agents| && agents[k].Locked? && cached.Some?
      modifies this
      ensures View() == Exec(old(View()), [Move(k, SaveLocked(fails)), Move(k, Assign)])
      ensures |agents| == |old(agents)| && agents[k].Locked? && guard == old(guard)
      ensures ok <==> !fails && old(cached.value.revision) == |old(versions)|
    {
      hide Exec;
      ExecTwo(View(), Move(k, SaveLocked(fails)), Move(k, Assign));
      var saved := SaveThreadSnapshot(cached.value, fails);
      if saved.None? {
        return false;
      }
      agents := agents[k := LockedSaved(saved.value)];
      cached, dirty := saved, false;
      agents := agents[k := Locked];
      ok := true;
    }

    /**
     * `mutate_thread_context`: take the guard, edit behind it, save, refresh; a refused save leaves the
     * edits in the cache.
     */
    method MutateThreadContext(k: nat, ops: seq<Op>, fails: bool) returns (ok: bool)
      requires k < |agents| && agents[k].Idle? && cached.Some? && guard.None?
      modifies this
      ensures View() == Exec(Exec(Exec(Exec(old(View()), [Move(k, Lock)]), EditsBy(k, ops)),
                                  [Move(k, SaveLocked(fails)), Move(k, Assign)]),
                             [Move(k, Unlock)])
      ensures ok <==> !fails && old(cached.value.revision) == |old(versions)|
    {
      hide Exec, EditsBy;
      ExecOne(View(), Move(k, Lock));
      guard, agents := Some(k), agents[k := Locked];
      EditBehindGuard(k, ops);
      ok := PersistLocked(k, fails);
      ExecOne(View(), Move(k, Unlock));
      guard, agents := None, agents[k := Idle];
    }

    method EditBehindGuard(k: nat, ops: seq<Op>)
      requires k < |agents| && agents[k].Locked? && cached.Some?
      modifies this`cached, this`dirty, this`stamps
      ensures View() == Exec(old(View()), EditsBy(k, ops))
      ensures cached.Some? && cached.value.revision == old(cached.value.revision)
    {
      hide Perform;
      ghost var moves := EditsBy(k, ops);
      var i := 0;
      while i < |ops|
        invariant i <= |ops| && cached.Some? && cached.value.revision == old(cached.value.revision)
        invariant View() == Exec(old(View()), moves[..i])
      {
        assert moves[..i + 1] == moves[..i] + [moves[i]];
        ExecSnoc(old(View()), moves[..i], moves[i]);
        EditStep(View(), k, ops[i]);
        cached, dirty, stamps := Some(Edited(cached.value, ops[i], stamps)), true, stamps + 1;
        i := i + 1;
      }
      assert moves[..i] == moves;
    }
  }

  lemma EditStep(s: State, k: nat, op: Op)
    requires k < |s.agents| && s.agents[k].Locked? && s.cache.Some?
    ensures Next(s, Move(k, EditLocked(op)))
         == s.(cache := Some(Edited(s.cache.value, op, s.stamps)), dirty := true, stamps := s.stamps + 1)
  {
  }
}
