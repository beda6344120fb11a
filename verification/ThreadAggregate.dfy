/** The thread aggregate: persisted messages and state, plus the turn machine that owns them. */
module ThreadAggregate {
  import opened Wrappers
  import opened Text
  import opened ChatModel

  datatype TurnEventKind = TextOutput | ToolCallEvent | ToolResultEvent | CompactEvent

  datatype TurnEvent = TurnEvent(kind: TurnEventKind, content: string, toolCallId: Option<string>, isError: bool)

  /** One recorded tool action; it names its turn only after that turn was finalized. */
  datatype ToolEvent = ToolEvent(turnId: Option<nat>, toolName: string, toolCallId: string, isError: bool)

  datatype Turn = Turn(turnId: nat, externalMessageId: Option<string>, events: seq<TurnEvent>,
                       toolEvents: seq<ToolEvent>)

  /** The value of a `Thread`: what a clone of it carries. */
  datatype ThreadState = ThreadState(
    messages: seq<Message>,
    toolsets: seq<string>,
    toolEvents: seq<ToolEvent>,
    autoCompact: Option<bool>,
    pending: seq<ToolEvent>,
    turn: Option<Turn>,
    revision: nat)

  datatype TurnStatus = Succeeded | Failed(error: string)

  datatype FinalizedTurn = FinalizedTurn(
    turnId: nat,
    externalMessageId: Option<string>,
    reply: string,
    status: TurnStatus,
    events: seq<TurnEvent>,
    snapshot: ThreadState)

  datatype ThreadError = TurnAlreadyOpen | NoActiveTurn

  const EMPTY_THREAD := ThreadState([], [], [], None, [], None, 0)

  function Bind(event: ToolEvent, turnId: nat): ToolEvent {
    event.(turnId := Some(turnId))
  }

  function BindAll(events: seq<ToolEvent>, turnId: nat): (bound: seq<ToolEvent>)
    ensures |bound| == |events|
    ensures forall i | 0 <= i < |events| :: bound[i] == Bind(events[i], turnId)
  {
    seq(|events|, i requires 0 <= i < |events| => Bind(events[i], turnId))
  }

  function FailureReply(error: string): string {
    "[openjarvis][agent_error] " + error
  }

  // ---- The operations, as functions of the thread's value ------------------------------------

  function OpenTurn(t: ThreadState, externalMessageId: Option<string>, turnId: nat): ThreadState {
    t.(turn := Some(Turn(turnId, externalMessageId, [], t.pending)), pending := [])
  }

  function Append(t: ThreadState, message: Message): ThreadState {
    t.(messages := t.messages + [message])
  }

  function Buffer(t: ThreadState, events: seq<TurnEvent>): ThreadState
    requires t.turn.Some?
  {
    t.(turn := Some(t.turn.value.(events := t.turn.value.events + events)))
  }

  function Record(t: ThreadState, event: ToolEvent): ThreadState {
    if t.turn.Some? then t.(turn := Some(t.turn.value.(toolEvents := t.turn.value.toolEvents + [event])))
    else t.(pending := t.pending + [event])
  }

  function Systems(messages: seq<Message>): seq<Message> {
    if messages == [] then []
    else (if messages[0].role == System then [messages[0]] else []) + Systems(messages[1..])
  }

  function ReplaceAfterCompaction(t: ThreadState, compacted: seq<Message>): ThreadState {
    t.(messages := Systems(t.messages) + compacted)
  }

  /** The thread once its turn is closed and the turn's tool events are stored under its id. */
  function CloseTurn(t: ThreadState): ThreadState
    requires t.turn.Some?
  {
    t.(toolEvents := t.toolEvents + BindAll(t.turn.value.toolEvents, t.turn.value.turnId), turn := None)
  }

  function FinalizeSuccess(t: ThreadState, reply: string): FinalizedTurn
    requires t.turn.Some?
  {
    var turn := t.turn.value;
    FinalizedTurn(turn.turnId, turn.externalMessageId, reply, Succeeded, turn.events, CloseTurn(t))
  }

  function FinalizeFailure(t: ThreadState, error: string): FinalizedTurn
    requires t.turn.Some?
  {
    var turn := t.turn.value;
    var events :=
      if turn.events == [] then [TurnEvent(TextOutput, FailureReply(error), None, true)] else turn.events;
    FinalizedTurn(turn.turnId, turn.externalMessageId, FailureReply(error), Failed(error), events, CloseTurn(t))
  }

  /** `/clear`: everything goes except the revision that guards the next save. */
  function Cleared(t: ThreadState): ThreadState {
    EMPTY_THREAD.(revision := t.revision)
  }

  // ---- Tool events are conserved ------------------------------------------------------------

  /** What one step of the turn machine does. */
  datatype Op =
    | OpBegin(externalMessageId: Option<string>, turnId: nat)
    | OpAppend(message: Message)
    | OpBuffer(event: TurnEvent)
    | OpRecord(toolEvent: ToolEvent)
    | OpCompact(compacted: seq<Message>)
    | OpSucceed(reply: string)
    | OpFail(error: string)
    | OpLoadToolset(name: string)
    | OpUnloadToolset(name: string)
    | OpReplace(replacement: seq<Message>)
    | OpAutoCompact(enabled: Option<bool>)
    | OpClear

  /** The thread after one step; a step that the turn machine refuses changes nothing. */
  function Apply(t: ThreadState, op: Op): ThreadState {
    match op
    case OpBegin(ext, id) => if t.turn.Some? then t else OpenTurn(t, ext, id)
    case OpAppend(m) => if t.turn.None? then t else Append(t, m)
    case OpBuffer(e) => if t.turn.None? then t else Buffer(t, [e])
    case OpRecord(e) => Record(t, e)
    case OpCompact(c) => if t.turn.None? then t else ReplaceAfterCompaction(t, c)
    case OpSucceed(reply) => if t.turn.None? then t else FinalizeSuccess(t, reply).snapshot
    case OpFail(error) => if t.turn.None? then t else FinalizeFailure(t, error).snapshot
    case OpLoadToolset(name) => if Trim(name) == "" then t else t.(toolsets := InsertName(t.toolsets, Trim(name)))
    case OpUnloadToolset(name) => t.(toolsets := RemoveName(t.toolsets, name))
    case OpReplace(replacement) => t.(messages := replacement)
    case OpAutoCompact(enabled) => t.(autoCompact := enabled)
    case OpClear => Cleared(t)
  }

  function ApplyAll(t: ThreadState, ops: seq<Op>): ThreadState
    decreases |ops|
  {
    if ops == [] then t else ApplyAll(Apply(t, ops[0]), ops[1..])
  }

  function Recorded(ops: seq<Op>): seq<ToolEvent> {
    if ops == [] then []
    else RecordedBy(ops[0]) + Recorded(ops[1..])
  }

  function RecordedBy(op: Op): seq<ToolEvent> {
    if op.OpRecord? then [op.toolEvent] else []
  }

  /** A tool event without the turn it was bound to. */
  function Unbound(events: seq<ToolEvent>): (r: seq<ToolEvent>)
    ensures |r| == |events|
    ensures forall i | 0 <= i < |events| :: r[i] == events[i].(turnId := None)
  {
    seq(|events|, i requires 0 <= i < |events| => events[i].(turnId := None))
  }

  /** Every tool event the thread still holds: stored, then owned by the open turn, then pending. */
  function AllToolEvents(t: ThreadState): seq<ToolEvent> {
    t.toolEvents + (if t.turn.Some? then t.turn.value.toolEvents else []) + t.pending
  }

  predicate PendingInvariant(t: ThreadState) {
    t.turn.Some? ==> t.pending == []
  }

  lemma ApplyConserves(t: ThreadState, op: Op)
    requires PendingInvariant(t)
    ensures PendingInvariant(Apply(t, op))
    ensures op != OpClear ==>
              Unbound(AllToolEvents(Apply(t, op))) == Unbound(AllToolEvents(t)) + Unbound(RecordedBy(op))
  {
    var t' := Apply(t, op);
    if op == OpClear {
    } else if op.OpRecord? {
      assert AllToolEvents(t') == AllToolEvents(t) + [op.toolEvent];
    } else {
      assert |AllToolEvents(t')| == |AllToolEvents(t)|;
      assert forall i | 0 <= i < |AllToolEvents(t)| ::
          AllToolEvents(t')[i].(turnId := None) == AllToolEvents(t)[i].(turnId := None);
    }
  }

  lemma UnboundAppend(a: seq<ToolEvent>, b: seq<ToolEvent>, c: seq<ToolEvent>)
    ensures Unbound(a) + Unbound(b) + Unbound(c) == Unbound(a) + Unbound(b + c)
  {
  }

  /** Over any run without `/clear`, the thread's tool events are the recorded ones, in order, each exactly once. */
  lemma {:induction false} ToolEventsConserved(t: ThreadState, ops: seq<Op>)
    requires PendingInvariant(t) && OpClear !in ops
    ensures PendingInvariant(ApplyAll(t, ops))
    ensures Unbound(AllToolEvents(ApplyAll(t, ops))) == Unbound(AllToolEvents(t)) + Unbound(Recorded(ops))
    decreases |ops|
  {
    if ops == [] {
      assert Unbound(Recorded(ops)) == [];
    } else {
      ApplyConserves(t, ops[0]);
      ToolEventsConserved(Apply(t, ops[0]), ops[1..]);
      UnboundAppend(AllToolEvents(t), RecordedBy(ops[0]), Recorded(ops[1..]));
    }
  }

  /** Finalizing a turn stores the events recorded for it under that turn's id, after the older ones. */
  lemma FinalizeBinds(t: ThreadState, op: Op)
    requires t.turn.Some? && (op.OpSucceed? || op.OpFail?)
    ensures var t', turn := Apply(t, op), t.turn.value;
            && t'.turn.None?
            && |t'.toolEvents| == |t.toolEvents| + |turn.toolEvents|
            && t'.toolEvents[..|t.toolEvents|] == t.toolEvents
            && forall i | 0 <= i < |turn.toolEvents| ::
                 t'.toolEvents[|t.toolEvents| + i] == turn.toolEvents[i].(turnId := Some(turn.turnId))
  {
  }

  /** No run of mutators, `/clear` among them, moves the revision. */
  lemma {:induction false} RevisionUntouched(t: ThreadState, ops: seq<Op>)
    ensures ApplyAll(t, ops).revision == t.revision
    decreases |ops|
  {
    if ops != [] {
      RevisionUntouched(Apply(t, ops[0]), ops[1..]);
    }
  }

  lemma ApplyKeepsSorted(t: ThreadState, op: Op)
    requires StrictlySorted(t.toolsets)
    ensures StrictlySorted(Apply(t, op).toolsets)
  {
    hide StrictlySorted, InsertName, RemoveName, Trim;
    match op {
      case OpLoadToolset(name) => InsertKeepsSorted(t.toolsets, Trim(name));
      case OpUnloadToolset(name) => RemoveKeepsSorted(t.toolsets, name);
      case OpClear => NoNamesSorted();
      case _ =>
    }
  }

  lemma NoNamesSorted()
    ensures StrictlySorted([])
  {
  }

  /** The loaded toolsets stay sorted and free of duplicates. */
  lemma {:induction false} ToolsetsStaySorted(t: ThreadState, ops: seq<Op>)
    requires StrictlySorted(t.toolsets)
    ensures StrictlySorted(ApplyAll(t, ops).toolsets)
    decreases |ops|
  {
    hide Apply, StrictlySorted;
    if ops != [] {
      ApplyKeepsSorted(t, ops[0]);
      ToolsetsStaySorted(Apply(t, ops[0]), ops[1..]);
    }
  }

  // ---- The aggregate, updated in place --------------------------------------------------------

  class Thread {
    var messages: seq<Message>
    var loadedToolsets: seq<string>
    var toolEvents: seq<ToolEvent>
    var autoCompactOverride: Option<bool>
    var pendingToolEvents: seq<ToolEvent>
    var currentTurn: Option<Turn>
    var revision: nat

    function State(): ThreadState
      reads this
    {
      ThreadState(messages, loadedToolsets, toolEvents, autoCompactOverride, pendingToolEvents, currentTurn, revision)
    }

    constructor ()
      ensures State() == EMPTY_THREAD
    {
      messages, loadedToolsets, toolEvents, autoCompactOverride := [], [], [], None;
      pendingToolEvents, currentTurn, revision := [], None, 0;
    }

    /** `*thread_context = other`: overwrite the whole aggregate with a clone. */
    method Assign(other: ThreadState)
      modifies this
      ensures State() == other
    {
      messages, loadedToolsets, toolEvents := other.messages, other.toolsets, other.toolEvents;
      autoCompactOverride, pendingToolEvents := other.autoCompact, other.pending;
      currentTurn, revision := other.turn, other.revision;
    }

    method BeginTurn(externalMessageId: Option<string>, turnId: nat) returns (r: Result<nat, ThreadError>)
      modifies this
      ensures r == if old(currentTurn).Some? then Err(TurnAlreadyOpen) else Ok(turnId)
      ensures State() == Apply(old(State()), OpBegin(externalMessageId, turnId))
      ensures r.Ok? ==>
                currentTurn == Some(Turn(turnId, externalMessageId, [], old(pendingToolEvents)))
                && pendingToolEvents == []
    {
      if currentTurn.Some? {
        return Err(TurnAlreadyOpen);
      }
      var turn := Turn(turnId, externalMessageId, [], []);
      turn := turn.(toolEvents := turn.toolEvents + pendingToolEvents);
      pendingToolEvents := [];
      currentTurn := Some(turn);
      assert [] + old(pendingToolEvents) == old(pendingToolEvents);
      r := Ok(turnId);
    }

    method AppendMessage(message: Message) returns (r: Result<(), ThreadError>)
      modifies this
      ensures r.Err? <==> old(currentTurn).None?
      ensures State() == Apply(old(State()), OpAppend(message))
      ensures messages == if r.Ok? then old(messages) + [message] else old(messages)
    {
      if currentTurn.None? {
        return Err(NoActiveTurn);
      }
      messages := messages + [message];
      r := Ok(());
    }

    method BufferTurnEvent(event: TurnEvent) returns (r: Result<(), ThreadError>)
      modifies this
      ensures r.Err? <==> old(currentTurn).None?
      ensures State() == Apply(old(State()), OpBuffer(event))
      ensures r.Ok? ==> currentTurn == Some(old(currentTurn).value.(events := old(currentTurn).value.events + [event]))
    {
      if currentTurn.None? {
        return Err(NoActiveTurn);
      }
      currentTurn := Some(currentTurn.value.(events := currentTurn.value.events + [event]));
      r := Ok(());
    }

    method RecordToolEvent(event: ToolEvent)
      modifies this
      ensures State() == Apply(old(State()), OpRecord(event))
    {
      if currentTurn.Some? {
        currentTurn := Some(currentTurn.value.(toolEvents := currentTurn.value.toolEvents + [event]));
        return;
      }
      pendingToolEvents := pendingToolEvents + [event];
    }

    method ReplaceMessages(replacement: seq<Message>)
      modifies this
      ensures State() == Apply(old(State()), OpReplace(replacement))
    {
      messages := replacement;
    }

    method ReplaceMessagesAfterCompaction(compacted: seq<Message>) returns (r: Result<(), ThreadError>)
      modifies this
      ensures r.Err? <==> old(currentTurn).None?
      ensures State() == Apply(old(State()), OpCompact(compacted))
      ensures r.Ok? ==> messages == Systems(old(messages)) + compacted
    {
      if currentTurn.None? {
        return Err(NoActiveTurn);
      }
      messages := Systems(messages) + compacted;
      r := Ok(());
    }

    method FinalizeTurnSuccess(reply: string) returns (r: Result<FinalizedTurn, ThreadError>)
      modifies this
      ensures r == if old(currentTurn).None? then Err(NoActiveTurn) else Ok(FinalizeSuccess(old(State()), reply))
      ensures State() == Apply(old(State()), OpSucceed(reply))
      ensures r.Ok? ==>
                var turn := old(currentTurn).value;
                r.value == FinalizedTurn(turn.turnId, turn.externalMessageId, reply, Succeeded, turn.events, State())
    {
      if currentTurn.None? {
        return Err(NoActiveTurn);
      }
      var turn := currentTurn.value;
      currentTurn := None;
      toolEvents := toolEvents + BindAll(turn.toolEvents, turn.turnId);
      r := Ok(FinalizedTurn(turn.turnId, turn.externalMessageId, reply, Succeeded, turn.events, State()));
    }

    method FinalizeTurnFailure(error: string) returns (r: Result<FinalizedTurn, ThreadError>)
      modifies this
      ensures r == if old(currentTurn).None? then Err(NoActiveTurn) else Ok(FinalizeFailure(old(State()), error))
      ensures State() == Apply(old(State()), OpFail(error))
      ensures r.Ok? ==>
                var turn, told := old(currentTurn).value, "[openjarvis][agent_error] " + error;
                r.value == FinalizedTurn(
                             turn.turnId, turn.externalMessageId, told, Failed(error),
                             if turn.events == [] then [TurnEvent(TextOutput, told, None, true)] else turn.events,
                             State())
    {
      if currentTurn.None? {
        return Err(NoActiveTurn);
      }
      var turn := currentTurn.value;
      currentTurn := None;
      var reply := FailureReply(error);
      toolEvents := toolEvents + BindAll(turn.toolEvents, turn.turnId);
      var events := turn.events;
      if events == [] {
        events := [TurnEvent(TextOutput, reply, None, true)];
      }
      r := Ok(FinalizedTurn(turn.turnId, turn.externalMessageId, reply, Failed(error), events, State()));
    }

    method ClearToInitialState()
      modifies this
      ensures State() == Apply(old(State()), OpClear)
      ensures State() == ThreadState([], [], [], None, [], None, old(revision))
    {
      messages, loadedToolsets, toolEvents, autoCompactOverride := [], [], [], None;
      pendingToolEvents := [];
      currentTurn := None;
    }

    /** True when the toolset was not loaded before. */
    method LoadToolset(name: string) returns (inserted: bool)
      modifies this
      ensures State() == Apply(old(State()), OpLoadToolset(name))
      ensures inserted <==> Trim(name) != "" && Trim(name) !in old(loadedToolsets)
      ensures forall n :: n in loadedToolsets <==> n in old(loadedToolsets) || (n == Trim(name) && n != "")
    {
      var trimmed := Trim(name);
      if trimmed == "" {
        return false;
      }
      inserted := trimmed !in loadedToolsets;
      loadedToolsets := InsertName(loadedToolsets, trimmed);
    }

    /** True when the toolset was loaded before. */
    method UnloadToolset(name: string) returns (removed: bool)
      modifies this
      ensures State() == Apply(old(State()), OpUnloadToolset(name))
      ensures removed <==> name in old(loadedToolsets)
      ensures forall n :: n in loadedToolsets <==> n in old(loadedToolsets) && n != name
    {
      var originalLength := |loadedToolsets|;
      loadedToolsets := RemoveName(loadedToolsets, name);
      removed := originalLength != |loadedToolsets|;
    }

    method SetRevision(newRevision: nat)
      modifies this
      ensures State() == old(State()).(revision := newRevision)
    {
      revision := newRevision;
    }
  }
}
