/**
 * The session manager over a compare-and-swap store, for one thread and any number of agents that
 * interleave. Snapshot writers load a clone, edit it, save it and then overwrite the cached
 * thread; locked writers edit the cached thread behind its guard, save a clone and refresh the guard.
 */
module SessionProtocol {
  import opened Wrappers
  import opened ThreadAggregate

  /** One edit of some copy; its stamp tells it from every other edit, even of the same kind. */
  datatype Edit = Edit(op: Op, stamp: nat)

  /** One live copy of the thread: its revision, and every edit ever made to what it was cloned from. */
  datatype Copy = Copy(revision: nat, edits: seq<Edit>)

  function OpsOf(edits: seq<Edit>): (ops: seq<Op>)
    ensures |ops| == |edits|
    ensures forall i | 0 <= i < |ops| :: ops[i] == edits[i].op
  {
    seq(|edits|, i requires 0 <= i < |edits| => edits[i].op)
  }

  /** The thread value that a copy stands for. */
  function Value(c: Copy): ThreadState {
    ApplyAll(EMPTY_THREAD, OpsOf(c.edits)).(revision := c.revision)
  }

  /** Where an agent is between two awaits. */
  datatype Agent =
    | Idle
    | Fetched(copy: Copy)      // read the store on a cache miss, not yet in the cache
    | Holding(copy: Copy)      // owns a clone
    | Saved(copy: Copy)        // saved its clone, cache not yet overwritten
    | Missed(copy: Copy)       // saved its clone and found no cached thread to overwrite
    | Locked                   // holds the guard
    | LockedSaved(copy: Copy)  // saved from behind the guard, guard not yet refreshed

  /**
   * `versions[r - 1]` is the history saved under revision r; `dirty` marks a guard edit made since
   * the cache was last refreshed; `stamps` is the number of edits made so far.
   */
  datatype State = State(
    versions: seq<seq<Edit>>,
    cache: Option<Copy>,
    lock: Option<nat>,
    agents: seq<Agent>,
    dirty: bool,
    stamps: nat)

  datatype Action =
    | Fetch | Insert | Fresh | Load | EditCopy(op: Op) | SaveCopy(fails: bool) | Sync | SyncInsert | Drop
    | Lock | EditLocked(op: Op) | SaveLocked(fails: bool) | Assign | Unlock

  /** What agent `agent` does next. */
  datatype Move = Move(agent: nat, action: Action)

  function VersionAt(versions: seq<seq<Edit>>, r: nat): seq<Edit>
    requires r <= |versions|
  {
    if r == 0 then [] else versions[r - 1]
  }

  predicate Enabled(s: State, move: Move) {
    move.agent < |s.agents| &&
    var a := s.agents[move.agent];
    match move.action
    case Fetch => a.Idle? && s.cache.None?
    case Insert => a.Fetched?
    case Fresh => a.Idle? && s.cache.None? && s.versions == []
    case Load => a.Idle? && s.cache.Some? && s.lock.None?
    case EditCopy(_) => a.Holding?
    case SaveCopy(_) => a.Holding?
    case Sync => a.Saved? && (s.cache.Some? ==> s.lock.None?)
    case SyncInsert => a.Missed?
    case Drop => a.Holding?
    case Lock => a.Idle? && s.cache.Some? && s.lock.None?
    case EditLocked(_) => a.Locked? && s.cache.Some?
    case SaveLocked(_) => a.Locked? && s.cache.Some?
    case Assign => a.LockedSaved?
    case Unlock => a.Locked?
  }

  function Put(s: State, agent: nat, a: Agent): State
    requires agent < |s.agents|
  {
    s.(agents := s.agents[agent := a])
  }

  function Edited(c: Copy, op: Op, stamp: nat): Copy {
    c.(edits := c.edits + [Edit(op, stamp)])
  }

  /** The store accepts a copy of the latest revision and no other. */
  predicate Accepts(s: State, c: Copy, fails: bool) {
    !fails && c.revision == |s.versions|
  }

  /** One atomic step of one agent. */
  function Perform(s: State, move: Move): State
    requires Enabled(s, move)
  {
    var k := move.agent;
    var a := s.agents[k];
    match move.action
    case Fetch => Put(s, k, Fetched(Copy(|s.versions|, VersionAt(s.versions, |s.versions|))))
    case Insert => Put(if s.cache.None? then s.(cache := Some(a.copy), dirty := false) else s, k, Idle)
    case Fresh => Put(s, k, Holding(Copy(0, [])))
    case Load => Put(s, k, Holding(s.cache.value))
    case EditCopy(op) => Put(s.(stamps := s.stamps + 1), k, Holding(Edited(a.copy, op, s.stamps)))
    case SaveCopy(fails) =>
      if Accepts(s, a.copy, fails) then
        Put(s.(versions := s.versions + [a.copy.edits]), k, Saved(a.copy.(revision := |s.versions| + 1)))
      else s
    case Sync =>
      if s.cache.Some? then Put(s.(cache := Some(a.copy), dirty := false), k, Idle) else Put(s, k, Missed(a.copy))
    case SyncInsert => Put(if s.cache.None? then s.(cache := Some(a.copy), dirty := false) else s, k, Idle)
    case Drop => Put(s, k, Idle)
    case Lock => Put(s.(lock := Some(k)), k, Locked)
    case EditLocked(op) =>
      s.(cache := Some(Edited(s.cache.value, op, s.stamps)), dirty := true, stamps := s.stamps + 1)
    case SaveLocked(fails) =>
      if Accepts(s, s.cache.value, fails) then
        Put(s.(versions := s.versions + [s.cache.value.edits]), k,
            LockedSaved(s.cache.value.(revision := |s.versions| + 1)))
      else s
    case Assign => Put(s.(cache := Some(a.copy), dirty := false), k, Locked)
    case Unlock => Put(s.(lock := None), k, Idle)
  }

  /** A move that is not enabled waits, and waiting changes nothing. */
  function Next(s: State, move: Move): State {
    if Enabled(s, move) then Perform(s, move) else s
  }

  function Exec(s: State, moves: seq<Move>): State
    decreases |moves|
  {
    if moves == [] then s else Exec(Next(s, moves[0]), moves[1..])
  }

  // ---- Copies are thread values -------------------------------------------------------------

  lemma {:induction false} RunSnoc(t: ThreadState, ops: seq<Op>, op: Op)
    ensures ApplyAll(t, ops + [op]) == Apply(ApplyAll(t, ops), op)
    decreases |ops|
  {
    if ops == [] {
      assert [op][1..] == [];
      assert ops + [op] == [op];
    } else {
      assert (ops + [op])[1..] == ops[1..] + [op];
      RunSnoc(Apply(t, ops[0]), ops[1..], op);
    }
  }

  /** Editing a copy is running the mutator on its thread; no mutator, `/clear` included, touches the revision. */
  lemma EditIsApply(c: Copy, op: Op, stamp: nat)
    ensures Value(Edited(c, op, stamp)) == Apply(Value(c), op)
  {
    RunSnoc(EMPTY_THREAD, OpsOf(c.edits), op);
    assert OpsOf(c.edits + [Edit(op, stamp)]) == OpsOf(c.edits) + [op];
  }

  // ---- The invariant ------------------------------------------------------------------------

  /** A copy with revision r derives from the r-th version. */
  predicate Derives(versions: seq<seq<Edit>>, c: Copy) {
    c.revision <= |versions| && VersionAt(versions, c.revision) <= c.edits
  }

  /** Every version extends all the ones before it: nothing saved is ever lost. */
  predicate Chain(versions: seq<seq<Edit>>) {
    forall i, j | 0 <= i <= j < |versions| :: versions[i] <= versions[j]
  }

  /** An agent that has saved and not yet refreshed the cache. */
  predicate Pending(a: Agent) {
    a.Saved? || a.LockedSaved?
  }

  predicate NonePending(s: State) {
    forall k | 0 <= k < |s.agents| :: !Pending(s.agents[k])
  }

  predicate OnlyPending(s: State, p: nat) {
    && p < |s.agents| && Pending(s.agents[p])
    && forall k | 0 <= k < |s.agents| && k != p :: !Pending(s.agents[k])
  }

  ghost predicate OnePending(s: State) {
    exists p: nat :: OnlyPending(s, p)
  }

  predicate AgentOk(s: State, k: nat)
    requires k < |s.agents| && s.cache.Some?
  {
    var a, c := s.agents[k], s.cache.value;
    && (s.lock == Some(k) <==> a.Locked? || a.LockedSaved?)
    && !a.Fetched? && !a.Missed?
    && (a.Holding? ==> Derives(s.versions, a.copy) && a.copy.revision <= c.revision)
    && (Pending(a) ==> s.versions != [] && a.copy == Copy(|s.versions|, s.versions[|s.versions| - 1]))
    && (a.LockedSaved? ==> a.copy.edits == c.edits)
  }

  predicate AgentsOk(s: State)
    requires s.cache.Some?
  {
    forall k: nat | k < |s.agents| :: AgentOk(s, k)
  }

  /** The cached revision trails the store by one save exactly when one agent is between its save and its refresh. */
  ghost predicate GapOk(s: State)
    requires s.cache.Some?
  {
    var r, n := s.cache.value.revision, |s.versions|;
    (r == n && NonePending(s)) || (r + 1 == n && OnePending(s))
  }

  ghost predicate Inv(s: State) {
    && s.cache.Some?
    && Chain(s.versions)
    && Derives(s.versions, s.cache.value)
    && (s.dirty <==> s.cache.value.edits != VersionAt(s.versions, s.cache.value.revision))
    && AgentsOk(s)
    && GapOk(s)
  }

  /** A cached thread that agrees with the store, and nobody at work. */
  predicate Settled(s: State) {
    && s.cache == Some(Copy(|s.versions|, VersionAt(s.versions, |s.versions|)))
    && Chain(s.versions) && s.lock.None? && !s.dirty
    && forall k | 0 <= k < |s.agents| :: s.agents[k].Idle?
  }

  lemma SettledStarts(s: State)
    requires Settled(s)
    ensures Inv(s)
  {
  }

  // ---- Every step keeps it ------------------------------------------------------------------

  lemma ChainSnoc(versions: seq<seq<Edit>>, next: seq<Edit>)
    requires Chain(versions) && VersionAt(versions, |versions|) <= next
    ensures Chain(versions + [next])
  {
    forall i, j | 0 <= i <= j < |versions + [next]|
      ensures (versions + [next])[i] <= (versions + [next])[j]
    {
      if j == |versions| && i < j {
        assert versions[i] <= versions[|versions| - 1];
      }
    }
  }

  lemma DerivesSnoc(versions: seq<seq<Edit>>, next: seq<Edit>, c: Copy)
    requires Derives(versions, c)
    ensures Derives(versions + [next], c) && VersionAt(versions + [next], c.revision) == VersionAt(versions, c.revision)
  {
  }

  /** Moving agent `k` alone, to a state that is not pending, leaves the others as they were. */
  lemma PutKeeps(s: State, k: nat, a: Agent, lock: Option<nat>)
    requires Inv(s) && k < |s.agents| && !Pending(s.agents[k]) && !Pending(a)
    requires AgentOk(Put(s.(lock := lock), k, a), k)
    requires s.lock == lock || s.lock == Some(k) || (s.lock == None && lock == Some(k))
    requires lock.None? || lock == s.lock || lock == Some(k)
    ensures Inv(Put(s.(lock := lock), k, a))
  {
    var s' := Put(s.(lock := lock), k, a);
    forall j: nat | j < |s'.agents|
      ensures AgentOk(s', j)
    {
      assert AgentOk(s, j);
    }
    if NonePending(s) {
      assert NonePending(s');
    } else {
      var p: nat :| OnlyPending(s, p);
      assert OnlyPending(s', p);
    }
  }

  /** A save is accepted only when nobody else is pending; it makes its agent the pending one. */
  lemma SaveKeeps(s: State, k: nat, c: Copy, locked: bool)
    requires Inv(s) && k < |s.agents| && !Pending(s.agents[k]) && c.revision == |s.versions|
    requires Derives(s.versions, c) && c.revision <= s.cache.value.revision
    requires locked ==> s.lock == Some(k) && c == s.cache.value
    requires !locked ==> s.lock != Some(k)
    ensures var c' := c.(revision := |s.versions| + 1);
            Inv(Put(s.(versions := s.versions + [c.edits]), k, if locked then LockedSaved(c') else Saved(c')))
  {
    hide Chain, Derives, VersionAt;
    var c' := c.(revision := |s.versions| + 1);
    var s' := Put(s.(versions := s.versions + [c.edits]), k, if locked then LockedSaved(c') else Saved(c'));
    assert NonePending(s);
    assert VersionAt(s.versions, |s.versions|) <= c.edits by { LatestPrefix(s.versions, c); }
    ChainSnoc(s.versions, c.edits);
    DerivesSnoc(s.versions, c.edits, s.cache.value);
    forall j: nat | j < |s'.agents|
      ensures AgentOk(s', j)
    {
      assert AgentOk(s, j);
      if j != k && s.agents[j].Holding? {
        DerivesSnoc(s.versions, c.edits, s.agents[j].copy);
      }
    }
    assert OnlyPending(s', k);
    assert s'.cache.value.revision + 1 == |s'.versions|;
  }

  lemma LatestPrefix(versions: seq<seq<Edit>>, c: Copy)
    requires Derives(versions, c) && c.revision == |versions|
    ensures VersionAt(versions, |versions|) <= c.edits
  {
  }

  /** Refreshing the cache with the pending copy closes the gap. */
  lemma RefreshKeeps(s: State, k: nat, a: Agent)
    requires Inv(s) && k < |s.agents| && Pending(s.agents[k])
    requires if s.agents[k].LockedSaved? then a.Locked? else a.Idle? && s.lock.None?
    ensures Inv(Put(s.(cache := Some(s.agents[k].copy), dirty := false), k, a))
  {
    hide Chain;
    var s' := Put(s.(cache := Some(s.agents[k].copy), dirty := false), k, a);
    assert AgentOk(s, k);
    assert !NonePending(s);
    var p: nat :| OnlyPending(s, p);
    assert p == k;
    forall j: nat | j < |s'.agents|
      ensures AgentOk(s', j)
    {
      assert AgentOk(s, j);
    }
    assert NonePending(s');
  }

  lemma EditLockedKeeps(s: State, k: nat, op: Op)
    requires Inv(s) && k < |s.agents| && s.agents[k].Locked?
    ensures Inv(s.(cache := Some(Edited(s.cache.value, op, s.stamps)), dirty := true, stamps := s.stamps + 1))
  {
    hide Chain;
    var s' := s.(cache := Some(Edited(s.cache.value, op, s.stamps)), dirty := true, stamps := s.stamps + 1);
    assert AgentOk(s, k);
    forall j: nat | j < |s'.agents|
      ensures AgentOk(s', j)
    {
      assert AgentOk(s, j);
    }
    if NonePending(s) {
      assert NonePending(s');
    } else {
      var p: nat :| OnlyPending(s, p);
      assert OnlyPending(s', p);
    }
    assert |VersionAt(s.versions, s.cache.value.revision)| <= |s.cache.value.edits|;
  }

  /** Every step of every agent keeps the invariant. */
  lemma NextKeeps(s: State, move: Move)
    requires Inv(s)
    ensures Inv(Next(s, move))
  {
    hide Inv, Chain, Derives, GapOk;
    if Enabled(s, move) {
      var k := move.agent;
      var a := s.agents[k];
      InvParts(s, k);
      match move.action
      case Load => PutKeeps(s, k, Holding(s.cache.value), s.lock);
      case EditCopy(op) => PutKeepsEdit(s, k, op);
      case SaveCopy(fails) => if Accepts(s, a.copy, fails) { SaveKeeps(s, k, a.copy, false); }
      case Sync => RefreshKeeps(s, k, Idle);
      case Drop => PutKeeps(s, k, Idle, s.lock);
      case Lock => PutKeeps(s, k, Locked, Some(k));
      case EditLocked(op) => EditLockedKeeps(s, k, op);
      case SaveLocked(fails) => if Accepts(s, s.cache.value, fails) { SaveKeeps(s, k, s.cache.value, true); }
      case Assign => RefreshKeeps(s, k, Locked);
      case Unlock => PutKeeps(s, k, Idle, None);
      case _ =>
    }
  }

  lemma InvParts(s: State, k: nat)
    requires Inv(s) && k < |s.agents|
    ensures s.cache.Some? && AgentOk(s, k) && Derives(s.versions, s.cache.value)
  {
  }

  lemma StampsAside(s: State, stamps: nat)
    requires Inv(s)
    ensures Inv(s.(stamps := stamps))
  {
    hide Chain, Derives;
    var s' := s.(stamps := stamps);
    forall k: nat | k < |s'.agents| ensures AgentOk(s', k) {
      assert AgentOk(s, k);
    }
    if !NonePending(s) {
      var p: nat :| OnlyPending(s, p);
      assert OnlyPending(s', p);
    }
  }

  lemma PutKeepsEdit(s: State, k: nat, op: Op)
    requires Inv(s) && k < |s.agents| && s.agents[k].Holding?
    ensures Inv(Put(s.(stamps := s.stamps + 1), k, Holding(Edited(s.agents[k].copy, op, s.stamps))))
  {
    hide Inv, Chain, GapOk;
    InvParts(s, k);
    PutKeeps(s, k, Holding(Edited(s.agents[k].copy, op, s.stamps)), s.lock);
    StampsAside(Put(s, k, Holding(Edited(s.agents[k].copy, op, s.stamps))), s.stamps + 1);
  }

  /** In every state that any interleaving reaches. */
  lemma {:induction false} ExecKeeps(s: State, moves: seq<Move>)
    requires Inv(s)
    ensures Inv(Exec(s, moves))
    decreases |moves|
  {
    hide Inv, Next;
    if moves != [] {
      NextKeeps(s, moves[0]);
      ExecKeeps(Next(s, moves[0]), moves[1..]);
    }
  }
}
