/**
 * One agent request as a function of its environment: the live thread, the revisioned store behind
 * it and the events sent to the router. The model, the tools, the hooks, the summarizer, the store
 * and the event channel are oracles that may answer differently at every step.
 */
module AgentLoop {
  import opened Wrappers
  import opened Text
  import opened ChatModel
  import opened ThreadAggregate

  /** What meets one attempt to save: nothing, a backend error, or another writer that saved first. */
  datatype SaveFate = Quiet | StoreFails | ForeignSave(other: ThreadState)

  datatype ModelReply = ModelFails(error: string) | ModelReply(text: Option<string>, calls: seq<ToolCall>)

  /** A tool's answer, failed calls included; the only thread state a tool reaches is the loaded toolsets. */
  datatype ToolOutcome = ToolOutcome(content: string, isError: bool, toolsets: seq<string>)

  datatype Summarizer = SummarizerFails(error: string) | Summary(text: string)

  /** The prompts a fresh thread starts with, or a failure to build them. */
  datatype Prompts = PromptsFail | Prompts(contents: seq<string>)

  /** Every answer of the outside world, by the step at which it is asked for. */
  datatype Env = Env(
    compactEnabled: bool,
    save: nat -> SaveFate,
    send: nat -> bool,
    hook: nat -> bool,
    prepare: nat -> bool,
    overBudget: nat -> bool,
    generate: nat -> ModelReply,
    tool: nat -> ToolOutcome,
    summarize: nat -> Summarizer,
    prompts: nat -> Prompts)

  datatype StoreCell = StoreCell(revision: nat, snapshot: Option<ThreadState>, dedup: map<string, nat>)

  datatype DispatchEvent = DispatchEvent(event: TurnEvent, replyToSource: bool)

  datatype WorkerEvent =
    | MessageCommitted(turnId: nat, message: Message, dispatch: seq<DispatchEvent>)
    | TurnFinalized(turn: FinalizedTurn)
    | RequestCompleted

  /** One event as sent, with what the store held at that moment. */
  datatype Emission = Emission(event: WorkerEvent, store: StoreCell)

  datatype LogEntry = Appended(message: Message) | Rewritten(replacement: seq<Message>)

  /** A history as sent to the model, and whether it was torn by then. */
  datatype Sent = Sent(messages: seq<Message>, torn: bool)

  /**
   * The state of one request. `dispatched`, `requests`, `log`, `saves`, `conflicts`, `intact` and
   * `torn` record what happened: events handed to the commit hook, histories sent to the model,
   * history changes, successful saves, revision conflicts, whether every tool batch ran to its end
   * without a rewrite inside it, and whether some batch since the last rewrite left calls without
   * results or results without calls.
   */
  datatype Run = Run(
    thread: ThreadState,
    store: StoreCell,
    emitted: seq<Emission>,
    replyToSource: bool,
    dispatched: seq<DispatchEvent>,
    requests: seq<Sent>,
    log: seq<LogEntry>,
    saves: nat,
    conflicts: nat,
    intact: bool,
    torn: bool,
    clock: nat)

  datatype LoopError =
    | StoreError
    | RevisionConflict
    | SendError
    | HookError
    | PrepareError
    | ModelError(text: string)
    | NoReply
    | NoAssistantText
    | SummaryError(text: string)
    | ThreadRefused(cause: ThreadError)

  function Describe(error: LoopError): string {
    match error
    case StoreError => "session store failed"
    case RevisionConflict => "revision conflict"
    case SendError => "failed to report committed message"
    case HookError => "hook failed"
    case PrepareError => "failed to prepare request"
    case ModelError(text) => text
    case NoReply => "llm response did not contain assistant text or tool calls"
    case NoAssistantText => "llm final response did not contain assistant text"
    case SummaryError(text) => text
    case ThreadRefused(_) => "thread does not own one active turn"
  }

  /** A run after one fallible operation. */
  datatype Step = Step(run: Run, error: Option<LoopError>)

  /** A run after one fallible operation that computes a value. */
  datatype Valued<T> = Valued(run: Run, result: Result<T, LoopError>)

  // ---- What a log says about the history -----------------------------------------------------

  /** The replacement put in by the last rewrite. */
  function LastRewrite(log: seq<LogEntry>): Option<seq<Message>> {
    if log == [] then None
    else
      var last := log[|log| - 1];
      if last.Rewritten? then Some(last.replacement) else LastRewrite(log[..|log| - 1])
  }

  /** The messages appended since the last rewrite. */
  function SinceRewrite(log: seq<LogEntry>): seq<Message> {
    if log == [] || log[|log| - 1].Rewritten? then []
    else SinceRewrite(log[..|log| - 1]) + [log[|log| - 1].message]
  }

  function CountRole(messages: seq<Message>, role: Role): nat {
    if messages == [] then 0 else (if messages[0].role == role then 1 else 0) + CountRole(messages[1..], role)
  }

  /**
   * Whether a request can follow what a batch added: every announced call is answered, or the last
   * thing added is a rewrite.
   */
  predicate Sendable(added: seq<LogEntry>) {
    if LastRewrite(added).Some? then SinceRewrite(added) == []
    else CountRole(SinceRewrite(added), Toolcall) == CountRole(SinceRewrite(added), ToolResult)
  }

  /** Whether the history is torn after a batch that added `added`: only a rewrite mends it. */
  predicate Torn(before: bool, added: seq<LogEntry>) {
    (before && LastRewrite(added).None?) || !Sendable(added)
  }

  /** What the log gained from `w` to `w'`. */
  function Gained(w: Run, w': Run): seq<LogEntry> {
    if |w.log| <= |w'.log| then w'.log[|w.log|..] else []
  }

  // ---- Messages and events the loop builds ---------------------------------------------------

  const COMPACTED_ASSISTANT_PREFIX := "这是压缩后的上下文，请基于这些信息继续当前任务：\n"
  const COMPACTED_USER_CONTINUE_MESSAGE := "继续"

  function CompactedMessages(summary: string): seq<Message> {
    [NewMessage(Assistant, COMPACTED_ASSISTANT_PREFIX + summary), NewMessage(User, COMPACTED_USER_CONTINUE_MESSAGE)]
  }

  function ToolCallMessage(call: ToolCall): Message {
    NewMessage(Toolcall, "").(toolCalls := [call])
  }

  function ToolResultMessage(call: ToolCall, content: string, isError: bool): Message {
    var shown := if isError then "Tool execution failed: " + content else content;
    NewMessage(ToolResult, shown).(toolCallId := Some(call.id))
  }

  function TextEvent(content: string, isError: bool): TurnEvent {
    TurnEvent(TextOutput, content, None, isError)
  }

  const TOOL_EVENT_PREVIEW_MAX_CHARS: nat := 300

  /** `truncate_tool_message`: what a channel shows of a tool's arguments or result; the history keeps the whole. */
  function Preview(text: string): string {
    if |text| <= TOOL_EVENT_PREVIEW_MAX_CHARS then text
    else text[..TOOL_EVENT_PREVIEW_MAX_CHARS] + "...(truncated, total_chars=" + Decimal(|text|) + ")"
  }

  function CallEvent(call: ToolCall): TurnEvent {
    TurnEvent(ToolCallEvent, "[openjarvis][tool_call] " + call.name + " " + Preview(call.arguments), Some(call.id),
              false)
  }

  function ResultEvent(call: ToolCall, content: string, isError: bool): TurnEvent {
    var shown := ToolResultMessage(call, content, isError).content;
    TurnEvent(ToolResultEvent, "[openjarvis][tool_result] " + Preview(shown), Some(call.id), isError)
  }

  /** `build_compact_event` */
  function CompactTurnEvent(callId: Option<string>, text: string, isError: bool): TurnEvent {
    TurnEvent(CompactEvent, text, callId, isError)
  }

  const NOTHING_TO_COMPACT := "[openjarvis][compact] no chat history was available to compact"

  function CompactedNote(messages: seq<Message>): string {
    "[openjarvis][compact] compacted " + Decimal(|NonSystem(messages)|) + " messages from current chat history"
  }

  function FailedNote(message: string): string {
    "[openjarvis][compact] failed: " + message
  }

  /** `prepare_dispatch_event` over a batch: only the very first event of a request replies to its source. */
  function Dispatches(events: seq<TurnEvent>, replyToSource: bool): seq<DispatchEvent> {
    if events == [] then []
    else [DispatchEvent(events[0], replyToSource)] + Dispatches(events[1..], false)
  }

  function NonSystem(messages: seq<Message>): seq<Message> {
    if messages == [] then []
    else (if messages[0].role != System then [messages[0]] else []) + NonSystem(messages[1..])
  }

  // ---- Saving and publishing -----------------------------------------------------------------

  function Tick(w: Run): Run {
    w.(clock := w.clock + 1)
  }

  function Hook(env: Env, w: Run): Step {
    Step(Tick(w), if env.hook(w.clock) then None else Some(HookError))
  }

  function Prepare(env: Env, w: Run): Step {
    Step(Tick(w), if env.prepare(w.clock) then None else Some(PrepareError))
  }

  function Bound(dedup: map<string, nat>, record: Option<(string, nat)>): map<string, nat> {
    if record.Some? then dedup[record.value.0 := record.value.1] else dedup
  }

  /** `save_thread_snapshot`: compare-and-swap on the revision, binding the dedup record to the same write. */
  function Save(env: Env, w: Run, snapshot: ThreadState, record: Option<(string, nat)>): Valued<ThreadState> {
    match env.save(w.clock)
    case StoreFails => Valued(Tick(w), Err(StoreError))
    case ForeignSave(other) =>
      var revision := w.store.revision + 1;
      Swap(Tick(w).(store := w.store.(revision := revision, snapshot := Some(other.(revision := revision)))),
           snapshot, record)
    case Quiet => Swap(Tick(w), snapshot, record)
  }

  function Swap(w: Run, snapshot: ThreadState, record: Option<(string, nat)>): Valued<ThreadState> {
    if snapshot.revision != w.store.revision then Valued(w.(conflicts := w.conflicts + 1), Err(RevisionConflict))
    else
      var persisted := snapshot.(revision := w.store.revision + 1);
      Valued(w.(store := StoreCell(persisted.revision, Some(persisted), Bound(w.store.dedup, record)),
                saves := w.saves + 1),
             Ok(persisted))
  }

  function Emit(env: Env, w: Run, event: WorkerEvent): Step {
    if env.send(w.clock) then Step(Tick(w).(emitted := w.emitted + [Emission(event, w.store)]), None)
    else Step(Tick(w), Some(SendError))
  }

  /** `commit_message`, with the thread changes before its save. */
  function Stage(w: Run, message: Message, events: seq<TurnEvent>): Run
    requires w.thread.turn.Some?
  {
    w.(thread := Buffer(Append(w.thread, message), events),
       dispatched := w.dispatched + Dispatches(events, w.replyToSource),
       replyToSource := w.replyToSource && events == [],
       log := w.log + [Appended(message)])
  }

  /** `commit_message`: append, buffer, persist, and only then publish. */
  function Commit(env: Env, w: Run, message: Message, events: seq<TurnEvent>): Step {
    if w.thread.turn.None? then Step(w, Some(ThreadRefused(NoActiveTurn)))
    else
      var staged := Stage(w, message, events);
      var saved := Save(env, staged, staged.thread, None);
      if saved.result.Err? then Step(saved.run, Some(saved.result.error))
      else
        Emit(env, saved.run.(thread := saved.result.value),
             MessageCommitted(w.thread.turn.value.turnId, message, Dispatches(events, w.replyToSource)))
  }

  // ---- Compaction ----------------------------------------------------------------------------

  function BufferEvent(w: Run, event: TurnEvent): Run
    requires w.thread.turn.Some?
  {
    w.(thread := Buffer(w.thread, [event]))
  }

  /** The non-system history gives way to a summary. */
  function Rewrite(w: Run, replacement: seq<Message>): Run {
    w.(thread := ReplaceAfterCompaction(w.thread, replacement), log := w.log + [Rewritten(replacement)])
  }

  /** `execute_turn_compaction`; the value says whether the history was rewritten. */
  function Compact(env: Env, w: Run, callId: Option<string>): Valued<bool> {
    if w.thread.turn.None? then Valued(w, Err(ThreadRefused(NoActiveTurn)))
    else if w.thread.messages == [] then
      Valued(BufferEvent(w, CompactTurnEvent(callId, NOTHING_TO_COMPACT, false)), Ok(false))
    else
      var hooked := Hook(env, w);
      if hooked.error.Some? then Valued(hooked.run, Err(hooked.error.value))
      else if NonSystem(w.thread.messages) == [] then Valued(hooked.run, Ok(false))
      else
        match env.summarize(hooked.run.clock)
        case SummarizerFails(error) => Valued(Tick(hooked.run), Err(SummaryError(error)))
        case Summary(text) =>
          Valued(BufferEvent(Rewrite(Tick(hooked.run), CompactedMessages(text)),
                             CompactTurnEvent(callId, CompactedNote(w.thread.messages), false)),
                 Ok(true))
  }

  // ---- Tools ---------------------------------------------------------------------------------

  function RecordTool(w: Run, call: ToolCall, isError: bool): Run {
    w.(thread := Record(w.thread, ToolEvent(None, call.name, call.id, isError)))
  }

  /** A compact request that went wrong is a failed tool call, not a failed turn. */
  function CompactFailed(env: Env, w: Run, call: ToolCall, message: string): Valued<ToolOutcome> {
    var hooked := Hook(env, w);
    if hooked.error.Some? then Valued(hooked.run, Err(hooked.error.value))
    else if w.thread.turn.None? then Valued(RecordTool(hooked.run, call, true), Err(ThreadRefused(NoActiveTurn)))
    else
      Valued(BufferEvent(RecordTool(hooked.run, call, true),
                         CompactTurnEvent(Some(call.id), FailedNote(message), true)),
             Ok(ToolOutcome(message, true, w.thread.toolsets)))
  }

  /** The result of a compact call that did not fail, over the messages it found. */
  function CompactTold(messages: seq<Message>, rewrote: bool): string {
    if rewrote then
      "compact completed: compacted " + Decimal(|NonSystem(messages)|) + " messages from current chat history"
    else "compact skipped: no chat history was available to compact"
  }

  /** `handle_model_requested_compact` */
  function ModelCompact(env: Env, w: Run, call: ToolCall): Valued<ToolOutcome> {
    if !env.compactEnabled then CompactFailed(env, w, call, "compact runtime is disabled")
    else
      var compacted := Compact(env, w, Some(call.id));
      if compacted.result.Err? then CompactFailed(env, compacted.run, call, Describe(compacted.result.error))
      else
        var rewrote := compacted.result.value;
        var hooked := Hook(env, compacted.run.(intact := compacted.run.intact && !rewrote));
        if hooked.error.Some? then Valued(hooked.run, Err(hooked.error.value))
        else
          Valued(RecordTool(hooked.run, call, false),
                 Ok(ToolOutcome(CompactTold(w.thread.messages, rewrote), false, w.thread.toolsets)))
  }

  /** `call_thread_tool` and the hook that reports its outcome. */
  function CallTool(env: Env, w: Run, call: ToolCall): Valued<ToolOutcome> {
    var outcome := env.tool(w.clock);
    var called := Tick(w).(thread := w.thread.(toolsets := outcome.toolsets));
    var hooked := Hook(env, called);
    if hooked.error.Some? then Valued(hooked.run, Err(hooked.error.value))
    else Valued(RecordTool(hooked.run, call, outcome.isError), Ok(outcome))
  }

  /** One call of a batch, from its pre-use hook to its committed result. */
  function RunTool(env: Env, w: Run, call: ToolCall): Step {
    var hooked := Hook(env, w);
    if hooked.error.Some? then hooked
    else
      var called :=
        if call.name == "compact" then ModelCompact(env, hooked.run, call) else CallTool(env, hooked.run, call);
      if called.result.Err? then Step(called.run, Some(called.result.error))
      else
        var outcome := called.result.value;
        Commit(env, called.run, ToolResultMessage(call, outcome.content, outcome.isError),
               [ResultEvent(call, outcome.content, outcome.isError)])
  }

  function RunTools(env: Env, w: Run, calls: seq<ToolCall>): Step
    decreases |calls|
  {
    if calls == [] then Step(w, None)
    else
      var first := RunTool(env, w, calls[0]);
      if first.error.Some? then first else RunTools(env, first.run, calls[1..])
  }

  function CommitCalls(env: Env, w: Run, calls: seq<ToolCall>): Step
    decreases |calls|
  {
    if calls == [] then Step(w, None)
    else
      var first := Commit(env, w, ToolCallMessage(calls[0]), [CallEvent(calls[0])]);
      if first.error.Some? then first else CommitCalls(env, first.run, calls[1..])
  }

  /** A batch of tool calls: every call message first, then every result. */
  function Batch(env: Env, w: Run, calls: seq<ToolCall>): Step {
    var announced := CommitCalls(env, w, calls);
    var ran := if announced.error.Some? then announced else RunTools(env, announced.run, calls);
    Step(ran.run.(intact := ran.run.intact && ran.error.None?, torn := Torn(w.torn, Gained(w, ran.run))), ran.error)
  }

  // ---- The loop ------------------------------------------------------------------------------

  /** How one pass through the model ends. */
  datatype Pass = Answered(reply: string) | UsedTools | PassFailed(error: LoopError)

  function Answer(env: Env, w: Run, text: Option<string>): (Run, Pass) {
    if text.None? then (w, PassFailed(NoReply))
    else if IsBlank(text.value) then (w, PassFailed(NoAssistantText))
    else
      var said := Commit(env, w, NewMessage(Assistant, text.value), [TextEvent(text.value, false)]);
      (said.run, if said.error.Some? then PassFailed(said.error.value) else Answered(text.value))
  }

  /** The assistant text that may precede a batch. */
  function Preamble(env: Env, w: Run, text: Option<string>): Step {
    if text.None? || IsBlank(text.value) then Step(w, None)
    else Commit(env, w, NewMessage(Assistant, text.value), [TextEvent(text.value, false)])
  }

  function UseTools(env: Env, w: Run, text: Option<string>, calls: seq<ToolCall>): (Run, Pass) {
    var said := Preamble(env, w, text);
    if said.error.Some? then (said.run, PassFailed(said.error.value))
    else
      var batch := Batch(env, said.run, calls);
      (batch.run, if batch.error.Some? then PassFailed(batch.error.value) else UsedTools)
  }

  /** The inner block of one iteration: prepare, ask the model, act on its reply. */
  function AskModel(env: Env, w: Run): (Run, Pass) {
    var prepared := Prepare(env, w);
    if prepared.error.Some? then (prepared.run, PassFailed(prepared.error.value))
    else
      var asked := prepared.run.(requests := w.requests + [Sent(w.thread.messages, w.torn)]);
      match env.generate(asked.clock)
      case ModelFails(error) => (Tick(asked), PassFailed(ModelError(error)))
      case ModelReply(text, calls) =>
        if calls == [] then Answer(env, Tick(asked), text) else UseTools(env, Tick(asked), text, calls)
  }

  /** How one iteration of the loop ends. */
  datatype Iteration = Again | Ends(reply: string, failure: Option<string>) | Hard(error: LoopError)

  /** The compaction that runs before a request when the budget is exceeded. */
  function RuntimeCompact(env: Env, w: Run): Step {
    if env.compactEnabled && NonSystem(w.thread.messages) != [] && env.overBudget(w.clock) then
      var compacted := Compact(env, Tick(w), None);
      Step(compacted.run.(torn := compacted.run.torn && compacted.result != Ok(true)),
           if compacted.result.Err? then Some(compacted.result.error) else None)
    else Step(Tick(w), None)
  }

  function Conclude(env: Env, w: Run, pass: Pass): (Run, Iteration) {
    match pass
    case Answered(reply) => (w, Ends(reply, None))
    case UsedTools => (w, Again)
    case PassFailed(error) =>
      var reply := FailureReply(Describe(error));
      var told := Commit(env, w, NewMessage(Assistant, reply), [TextEvent(reply, true)]);
      (told.run, if told.error.Some? then Hard(told.error.value) else Ends(reply, Some(Describe(error))))
  }

  function Iterate(env: Env, w: Run): (Run, Iteration) {
    var prepared := Prepare(env, w);
    if prepared.error.Some? then (prepared.run, Hard(prepared.error.value))
    else
      var compacted := RuntimeCompact(env, prepared.run);
      if compacted.error.Some? then (compacted.run, Hard(compacted.error.value))
      else
        var asked := AskModel(env, compacted.run);
        Conclude(env, asked.0, asked.1)
  }

  /** The first `n` iterations; `Again` means the loop is still running after them. */
  function Loop(env: Env, w: Run, n: nat): (Run, Iteration)
    decreases n
  {
    hide Iterate;
    if n == 0 then (w, Again)
    else
      var once := Iterate(env, w);
      if once.1.Again? then Loop(env, once.0, n - 1) else once
  }

  datatype LiveOutcome = StillRunning | LoopOk(turn: FinalizedTurn) | LoopErr(error: LoopError)

  function Close(env: Env, w: Run, reply: string, failure: Option<string>): (Run, LiveOutcome) {
    if w.thread.turn.None? then (w, LoopErr(ThreadRefused(NoActiveTurn)))
    else
      var turn := if failure.Some? then FinalizeFailure(w.thread, failure.value) else FinalizeSuccess(w.thread, reply);
      var hooked := Hook(env, w.(thread := turn.snapshot));
      (hooked.run, if hooked.error.Some? then LoopErr(hooked.error.value) else LoopOk(turn))
  }

  /** The run once its turn is open and its user message is about to be committed. */
  function Opened(w: Run, externalMessageId: Option<string>): Run {
    w.(thread := OpenTurn(w.thread, externalMessageId, w.clock), dispatched := [], replyToSource := true, log := [])
  }

  /** `run_live_thread`, observed for at most `n` iterations. */
  function RunLive(env: Env, w: Run, externalMessageId: Option<string>, content: string, n: nat): (Run, LiveOutcome) {
    var prepared := Prepare(env, w);
    if prepared.error.Some? then (prepared.run, LoopErr(prepared.error.value))
    else
      var hooked := Hook(env, prepared.run);
      if hooked.error.Some? then (hooked.run, LoopErr(hooked.error.value))
      else if hooked.run.thread.turn.Some? then (hooked.run, LoopErr(ThreadRefused(TurnAlreadyOpen)))
      else RunTurn(env, Opened(hooked.run, externalMessageId), content, n)
  }

  /** `run_live_thread` from its first commit on. */
  function RunTurn(env: Env, w: Run, content: string, n: nat): (Run, LiveOutcome) {
    var heard := Commit(env, w, NewMessage(User, content), []);
    if heard.error.Some? then (heard.run, LoopErr(heard.error.value))
    else
      var looped := Loop(env, heard.run, n);
      match looped.1
      case Again => (looped.0, StillRunning)
      case Hard(error) => (looped.0, LoopErr(error))
      case Ends(reply, failure) => Close(env, looped.0, reply, failure)
  }
}
