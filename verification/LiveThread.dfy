/** The agent loop and the worker as they run: a live thread, a store and an event channel updated in place. */
module LiveThread {
  import opened Wrappers
  import opened Text
  import opened ChatModel
  import opened ThreadAggregate
  import opened AgentLoop
  import opened AgentWorker
  import opened WorkerRuns
  import opened TurnRuns
  import opened ToolPairing
  import opened OpenAiMessages

  lemma DispatchesSplit(events: seq<TurnEvent>, i: nat, replyToSource: bool)
    requires i < |events|
    ensures Dispatches(events[i..], replyToSource)
            == [DispatchEvent(events[i], replyToSource)] + Dispatches(events[i + 1..], false)
  {
    assert events[i..][1..] == events[i + 1..];
  }

  lemma BufferSplit(t: ThreadState, events: seq<TurnEvent>, i: nat)
    requires t.turn.Some? && i < |events|
    ensures Buffer(t, events[..i]).turn.Some? && Buffer(t, events[..i + 1]).turn.Some?
    ensures Buffer(Buffer(t, events[..i]), [events[i]]) == Buffer(t, events[..i + 1])
  {
    assert events[..i + 1] == events[..i] + [events[i]];
    assert t.turn.value.events + events[..i] + [events[i]] == t.turn.value.events + (events[..i] + [events[i]]);
  }

  lemma BufferNone(t: ThreadState)
    requires t.turn.Some?
    ensures Buffer(t, []) == t
  {
    assert t.turn.value.events + [] == t.turn.value.events;
  }

  class LiveRun {
    const env: Env
    const thread: Thread
    var store: StoreCell
    var emitted: seq<Emission>
    var replyToSource: bool
    var clock: nat
    ghost var dispatched: seq<DispatchEvent>
    ghost var requests: seq<Sent>
    ghost var log: seq<LogEntry>
    ghost var saves: nat
    ghost var conflicts: nat
    ghost var intact: bool
    ghost var torn: bool

    constructor (env: Env, thread: Thread, store: StoreCell)
      ensures this.env == env && this.thread == thread
      ensures View() == Run(thread.State(), store, [], true, [], [], [], 0, 0, true, false, 0)
    {
      this.env, this.thread, this.store := env, thread, store;
      emitted, replyToSource, clock := [], true, 0;
      dispatched, requests, log, saves, conflicts, intact, torn := [], [], [], 0, 0, true, false;
    }

    /** Everything the request has done so far, as one value. */
    ghost function View(): Run
      reads this, thread
    {
      Run(thread.State(), store, emitted, replyToSource, dispatched, requests, log, saves, conflicts, intact, torn,
          clock)
    }

    // ---- Single fallible steps ---------------------------------------------------------------

    method EmitHook() returns (error: Option<LoopError>)
      modifies this`clock
      ensures Step(View(), error) == Hook(env, old(View()))
    {
      error := if env.hook(clock) then None else Some(HookError);
      clock := clock + 1;
    }

    method PrepareRequest() returns (error: Option<LoopError>)
      modifies this`clock
      ensures Step(View(), error) == Prepare(env, old(View()))
    {
      error := if env.prepare(clock) then None else Some(PrepareError);
      clock := clock + 1;
    }

    method SendEvent(event: WorkerEvent) returns (error: Option<LoopError>)
      modifies this`clock, this`emitted
      ensures Step(View(), error) == Emit(env, old(View()), event)
    {
      if env.send(clock) {
        emitted := emitted + [Emission(event, store)];
        error := None;
      } else {
        error := Some(SendError);
      }
      clock := clock + 1;
    }

    /** `save_thread_snapshot` */
    method SaveSnapshot(snapshot: ThreadState, record: Option<(string, nat)>)
      returns (r: Result<ThreadState, LoopError>)
      modifies this`clock, this`store, this`saves, this`conflicts
      ensures Valued(View(), r) == Save(env, old(View()), snapshot, record)
    {
      hide Bound, Swap;
      var fate := env.save(clock);
      clock := clock + 1;
      if fate.StoreFails? {
        return Err(StoreError);
      }
      if fate.ForeignSave? {
        store := store.(revision := store.revision + 1, snapshot := Some(fate.other.(revision := store.revision + 1)));
      }
      r := SwapStored(snapshot, record);
    }

    /** The store's compare-and-swap on the revision. */
    method SwapStored(snapshot: ThreadState, record: Option<(string, nat)>)
      returns (r: Result<ThreadState, LoopError>)
      modifies this`store, this`saves, this`conflicts
      ensures Valued(View(), r) == Swap(old(View()), snapshot, record)
    {
      hide Bound;
      if snapshot.revision != store.revision {
        conflicts := conflicts + 1;
        return Err(RevisionConflict);
      }
      var persisted := snapshot.(revision := store.revision + 1);
      store := StoreCell(persisted.revision, Some(persisted), Bound(store.dedup, record));
      saves := saves + 1;
      r := Ok(persisted);
    }

    /** `persist_locked_thread_context` */
    method PersistLocked() returns (error: Option<LoopError>)
      modifies this`clock, this`store, this`saves, this`conflicts, thread
      ensures var saved := Save(env, old(View()), old(thread.State()), None);
              && View() == (if saved.result.Ok? then saved.run.(thread := saved.result.value) else saved.run)
              && error == (if saved.result.Ok? then None else Some(saved.result.error))
    {
      hide Save;
      var saved := SaveSnapshot(thread.State(), None);
      if saved.Err? {
        return Some(saved.error);
      }
      thread.Assign(saved.value);
      error := None;
    }

    // ---- Committing one message --------------------------------------------------------------

    method BufferEvents(events: seq<TurnEvent>)
      requires thread.currentTurn.Some?
      modifies thread
      ensures thread.State() == Buffer(old(thread.State()), events)
    {
      hide Buffer;
      BufferNone(thread.State());
      var i := 0;
      while i < |events|
        invariant i <= |events| && thread.currentTurn.Some?
        invariant thread.State() == Buffer(old(thread.State()), events[..i])
      {
        BufferSplit(old(thread.State()), events, i);
        var _ := thread.BufferTurnEvent(events[i]);
        i := i + 1;
      }
      assert events[..i] == events;
    }

    /** The events of one commit, marked for dispatch; only the first event of a request replies to its source. */
    method PrepareDispatches(events: seq<TurnEvent>) returns (dispatches: seq<DispatchEvent>)
      modifies this`replyToSource, this`dispatched
      ensures dispatches == Dispatches(events, old(replyToSource))
      ensures replyToSource == (old(replyToSource) && events == [])
      ensures dispatched == old(dispatched) + dispatches
    {
      dispatches := [];
      var i := 0;
      while i < |events|
        invariant i <= |events|
        invariant dispatches + Dispatches(events[i..], replyToSource) == Dispatches(events, old(replyToSource))
        invariant replyToSource == (old(replyToSource) && i == 0)
        invariant dispatched == old(dispatched)
      {
        DispatchesSplit(events, i, replyToSource);
        dispatches := dispatches + [DispatchEvent(events[i], replyToSource)];
        replyToSource := false;
        i := i + 1;
      }
      dispatched := dispatched + dispatches;
    }

    /** `commit_message`: append, buffer, persist, and only then publish. */
    method CommitMessage(message: Message, events: seq<TurnEvent>) returns (error: Option<LoopError>)
      modifies this, thread
      ensures Step(View(), error) == Commit(env, old(View()), message, events)
    {
      hide Save, Dispatches;
      var appended := thread.AppendMessage(message);
      if appended.Err? {
        return Some(ThreadRefused(NoActiveTurn));
      }
      BufferEvents(events);
      var dispatches := PrepareDispatches(events);
      log := log + [Appended(message)];
      var turnId := thread.currentTurn.value.turnId;
      assert View() == Stage(old(View()), message, events);
      error := PersistLocked();
      if error.Some? {
        return;
      }
      error := SendEvent(MessageCommitted(turnId, message, dispatches));
    }

    // ---- Compaction --------------------------------------------------------------------------

    /** `execute_turn_compaction`; the value says whether the history was rewritten. */
    method CompactTurn(callId: Option<string>) returns (r: Result<bool, LoopError>)
      modifies this, thread
      ensures Valued(View(), r) == Compact(env, old(View()), callId)
    {
      hide NonSystem, Systems, CompactedMessages, CompactedNote;
      if thread.messages == [] {
        var buffered := thread.BufferTurnEvent(CompactTurnEvent(callId, NOTHING_TO_COMPACT, false));
        return if buffered.Err? then Err(ThreadRefused(NoActiveTurn)) else Ok(false);
      }
      if thread.currentTurn.None? {
        return Err(ThreadRefused(NoActiveTurn));
      }
      var hooked := EmitHook();
      if hooked.Some? {
        return Err(hooked.value);
      }
      if NonSystem(thread.messages) == [] {
        return Ok(false);
      }
      var summary := env.summarize(clock);
      clock := clock + 1;
      if summary.SummarizerFails? {
        return Err(SummaryError(summary.error));
      }
      var replacement, note := CompactedMessages(summary.text), CompactedNote(thread.messages);
      var _ := thread.ReplaceMessagesAfterCompaction(replacement);
      log := log + [Rewritten(replacement)];
      var _ := thread.BufferTurnEvent(CompactTurnEvent(callId, note, false));
      r := Ok(true);
    }

    /** A compact request that went wrong, reported as a failed tool call. */
    method ReportCompactFailure(call: ToolCall, message: string) returns (r: Result<ToolOutcome, LoopError>)
      modifies this, thread
      ensures Valued(View(), r) == CompactFailed(env, old(View()), call, message)
    {
      var hooked := EmitHook();
      if hooked.Some? {
        return Err(hooked.value);
      }
      thread.RecordToolEvent(ToolEvent(None, call.name, call.id, true));
      var buffered := thread.BufferTurnEvent(CompactTurnEvent(Some(call.id), FailedNote(message), true));
      if buffered.Err? {
        return Err(ThreadRefused(NoActiveTurn));
      }
      r := Ok(ToolOutcome(message, true, thread.loadedToolsets));
    }

    /** `handle_model_requested_compact` */
    method HandleModelRequestedCompact(call: ToolCall) returns (r: Result<ToolOutcome, LoopError>)
      modifies this, thread
      ensures Valued(View(), r) == ModelCompact(env, old(View()), call)
    {
      hide Compact, CompactFailed, Describe, CompactTold;
      if !env.compactEnabled {
        r := ReportCompactFailure(call, "compact runtime is disabled");
        return;
      }
      CompactLeavesToolsets(env, View(), Some(call.id));
      var found := thread.messages;
      var compacted := CompactTurn(Some(call.id));
      if compacted.Err? {
        r := ReportCompactFailure(call, Describe(compacted.error));
        return;
      }
      intact := intact && !compacted.value;
      var hooked := EmitHook();
      if hooked.Some? {
        return Err(hooked.value);
      }
      thread.RecordToolEvent(ToolEvent(None, call.name, call.id, false));
      r := Ok(ToolOutcome(CompactTold(found, compacted.value), false, thread.loadedToolsets));
    }

    // ---- One batch of tool calls -------------------------------------------------------------

    /** `call_thread_tool`, and the hook that reports its outcome. */
    method CallThreadTool(call: ToolCall) returns (r: Result<ToolOutcome, LoopError>)
      modifies this, thread
      ensures Valued(View(), r) == CallTool(env, old(View()), call)
    {
      var outcome := env.tool(clock);
      clock := clock + 1;
      thread.loadedToolsets := outcome.toolsets;
      var hooked := EmitHook();
      if hooked.Some? {
        return Err(hooked.value);
      }
      thread.RecordToolEvent(ToolEvent(None, call.name, call.id, outcome.isError));
      r := Ok(outcome);
    }

    method RunOneTool(call: ToolCall) returns (error: Option<LoopError>)
      modifies this, thread
      ensures Step(View(), error) == RunTool(env, old(View()), call)
    {
      hide ModelCompact, CallTool, Commit;
      error := EmitHook();
      if error.Some? {
        return;
      }
      var called: Result<ToolOutcome, LoopError>;
      if call.name == "compact" {
        called := HandleModelRequestedCompact(call);
      } else {
        called := CallThreadTool(call);
      }
      if called.Err? {
        return Some(called.error);
      }
      error := CommitMessage(ToolResultMessage(call, called.value.content, called.value.isError),
                             [ResultEvent(call, called.value.content, called.value.isError)]);
    }

    /** Every call message of a batch, then every call's result. */
    method RunBatch(calls: seq<ToolCall>) returns (error: Option<LoopError>)
      modifies this, thread
      ensures Step(View(), error) == Batch(env, old(View()), calls)
    {
      hide Commit, RunTool, Torn, Gained, CallEvent, ToolCallMessage;
      ghost var start := View();
      var i := 0;
      while i < |calls|
        invariant i <= |calls|
        invariant CommitCalls(env, View(), calls[i..]) == CommitCalls(env, start, calls)
      {
        assert calls[i..][1..] == calls[i + 1..];
        error := CommitMessage(ToolCallMessage(calls[i]), [CallEvent(calls[i])]);
        if error.Some? {
          intact, torn := false, Torn(start.torn, Gained(start, View()));
          return;
        }
        i := i + 1;
      }
      ghost var announced := View();
      assert CommitCalls(env, start, calls) == Step(announced, None);
      i := 0;
      while i < |calls|
        invariant i <= |calls|
        invariant RunTools(env, View(), calls[i..]) == RunTools(env, announced, calls)
      {
        assert calls[i..][1..] == calls[i + 1..];
        error := RunOneTool(calls[i]);
        if error.Some? {
          intact, torn := false, Torn(start.torn, Gained(start, View()));
          return;
        }
        i := i + 1;
      }
      torn := Torn(start.torn, Gained(start, View()));
      error := None;
    }

    // ---- The loop ----------------------------------------------------------------------------

    method ActOnReply(text: Option<string>, calls: seq<ToolCall>) returns (pass: Pass)
      modifies this, thread
      ensures (View(), pass) == (if calls == [] then Answer(env, old(View()), text)
                                 else UseTools(env, old(View()), text, calls))
    {
      hide Commit, Batch, IsBlank;
      if calls == [] {
        if text.None? {
          return PassFailed(NoReply);
        }
        if IsBlank(text.value) {
          return PassFailed(NoAssistantText);
        }
        var error := CommitMessage(NewMessage(Assistant, text.value), [TextEvent(text.value, false)]);
        return if error.Some? then PassFailed(error.value) else Answered(text.value);
      }
      if text.Some? && !IsBlank(text.value) {
        var error := CommitMessage(NewMessage(Assistant, text.value), [TextEvent(text.value, false)]);
        if error.Some? {
          return PassFailed(error.value);
        }
      }
      var error := RunBatch(calls);
      pass := if error.Some? then PassFailed(error.value) else UsedTools;
    }

    /** The fallible inner block of one iteration. */
    method AskOnce() returns (pass: Pass)
      modifies this, thread
      ensures (View(), pass) == AskModel(env, old(View()))
    {
      hide Answer, UseTools;
      var prepared := PrepareRequest();
      if prepared.Some? {
        return PassFailed(prepared.value);
      }
      requests := requests + [Sent(thread.messages, torn)];
      var reply := env.generate(clock);
      clock := clock + 1;
      if reply.ModelFails? {
        return PassFailed(ModelError(reply.error));
      }
      pass := ActOnReply(reply.text, reply.calls);
    }

    /** The compaction that runs before a request when the budget is exceeded. */
    method CompactIfOverBudget() returns (error: Option<LoopError>)
      modifies this, thread
      ensures Step(View(), error) == RuntimeCompact(env, old(View()))
    {
      hide Compact, NonSystem;
      var exceeded := env.overBudget(clock);
      clock := clock + 1;
      if env.compactEnabled && NonSystem(thread.messages) != [] && exceeded {
        var compacted := CompactTurn(None);
        if compacted.Err? {
          return Some(compacted.error);
        }
        torn := torn && !compacted.value;
      }
      error := None;
    }

    method IterateOnce() returns (r: Iteration)
      modifies this, thread
      ensures (View(), r) == Iterate(env, old(View()))
    {
      hide RuntimeCompact, AskModel, Commit, Describe;
      var prepared := PrepareRequest();
      if prepared.Some? {
        return Hard(prepared.value);
      }
      var compacted := CompactIfOverBudget();
      if compacted.Some? {
        return Hard(compacted.value);
      }
      var pass := AskOnce();
      if pass.Answered? {
        return Ends(pass.reply, None);
      }
      if pass.UsedTools? {
        return Again;
      }
      var reply := FailureReply(Describe(pass.error));
      var error := CommitMessage(NewMessage(Assistant, reply), [TextEvent(reply, true)]);
      r := if error.Some? then Hard(error.value) else Ends(reply, Some(Describe(pass.error)));
    }

    /** `begin_turn`, with what a turn starts from. */
    method StartTurn(externalMessageId: Option<string>) returns (error: Option<LoopError>)
      modifies this`replyToSource, this`dispatched, this`log, thread
      ensures old(thread.State()).turn.Some? ==> error == Some(ThreadRefused(TurnAlreadyOpen)) && View() == old(View())
      ensures old(thread.State()).turn.None? ==> error.None? && View() == Opened(old(View()), externalMessageId)
    {
      var begun := thread.BeginTurn(externalMessageId, clock);
      if begun.Err? {
        return Some(ThreadRefused(TurnAlreadyOpen));
      }
      replyToSource, dispatched, log := true, [], [];
      error := None;
    }

    /** `run_live_thread`, stopped after `n` iterations if it is still looping. */
    method RunLiveThread(externalMessageId: Option<string>, content: string, n: nat) returns (outcome: LiveOutcome)
      modifies this, thread
      ensures (View(), outcome) == RunLive(env, old(View()), externalMessageId, content, n)
    {
      hide RunTurn, Opened;
      var error := PrepareRequest();
      if error.Some? {
        return LoopErr(error.value);
      }
      error := EmitHook();
      if error.Some? {
        return LoopErr(error.value);
      }
      error := StartTurn(externalMessageId);
      if error.Some? {
        return LoopErr(error.value);
      }
      outcome := RunOpenTurn(content, n);
    }

    /** The rest of it, from the first commit on. */
    method RunOpenTurn(content: string, n: nat) returns (outcome: LiveOutcome)
      modifies this, thread
      ensures (View(), outcome) == RunTurn(env, old(View()), content, n)
    {
      hide Iterate, Commit, Close, FinalizeFailure, FinalizeSuccess;
      var error := CommitMessage(NewMessage(User, content), []);
      if error.Some? {
        return LoopErr(error.value);
      }
      ghost var heard := View();
      var k, last := 0, Again;
      while k < n && last.Again?
        invariant k <= n
        invariant Loop(env, heard, n) == if last.Again? then Loop(env, View(), n - k) else (View(), last)
      {
        last := IterateOnce();
        k := k + 1;
      }
      match last
      case Again => outcome := StillRunning;
      case Hard(cause) => outcome := LoopErr(cause);
      case Ends(reply, failure) => outcome := FinishTurn(reply, failure);
    }

    method FinishTurn(reply: string, failure: Option<string>) returns (outcome: LiveOutcome)
      modifies this, thread
      ensures (View(), outcome) == Close(env, old(View()), reply, failure)
    {
      var finalized: Result<FinalizedTurn, ThreadError>;
      if failure.Some? {
        finalized := thread.FinalizeTurnFailure(failure.value);
      } else {
        finalized := thread.FinalizeTurnSuccess(reply);
      }
      if finalized.Err? {
        return LoopErr(ThreadRefused(NoActiveTurn));
      }
      var hooked := EmitHook();
      outcome := if hooked.Some? then LoopErr(hooked.value) else LoopOk(finalized.value);
    }

    // ---- The worker --------------------------------------------------------------------------

    /** `initialize_thread`, and the save of the thread it filled. */
    method InitializeThread() returns (r: Result<bool, LoopError>)
      modifies this, thread
      ensures Valued(View(), r) == Initialize(env, old(View()))
    {
      hide Save, SystemMessages;
      if thread.messages != [] {
        return Ok(false);
      }
      var prompts := env.prompts(clock);
      clock := clock + 1;
      if prompts.PromptsFail? {
        return Err(PrepareError);
      }
      if prompts.contents == [] {
        return Ok(false);
      }
      thread.ReplaceMessages(SystemMessages(prompts.contents));
      var error := PersistLocked();
      r := if error.Some? then Err(error.value) else Ok(true);
    }

    /** `commit_finalized_turn_locked`, then the two closing events. */
    method PublishTurn(turn: FinalizedTurn) returns (error: Option<LoopError>)
      modifies this, thread
      ensures Step(View(), error) == Publish(env, old(View()), turn)
    {
      hide Save, Bound;
      var saved := SaveSnapshot(turn.snapshot, RecordOf(turn));
      if saved.Err? {
        return Some(saved.error);
      }
      thread.Assign(saved.value);
      error := SendEvent(TurnFinalized(turn));
      if error.Some? {
        return;
      }
      error := SendEvent(RequestCompleted);
    }

    /** The failure turn that stands in for one the loop did not finish. */
    method FallBack(request: Request, cause: LoopError) returns (outcome: Outcome)
      modifies this, thread
      ensures (View(), outcome) == Fallback(env, old(View()), request, cause)
    {
      hide Commit, Publish, Describe, FinalizeFailure, FailureReply, BindAll, Opened;
      var error := StartTurn(request.externalMessageId);
      if error.Some? {
        return Dropped(error.value);
      }
      var reply := FailureReply(Describe(cause));
      error := CommitMessage(NewMessage(Assistant, reply), [TextEvent(reply, true)]);
      if error.Some? {
        return Dropped(error.value);
      }
      var finalized := thread.FinalizeTurnFailure(Describe(cause));
      if finalized.Err? {
        return Dropped(ThreadRefused(NoActiveTurn));
      }
      error := PublishTurn(finalized.value);
      outcome := if error.Some? then Dropped(error.value) else Completed(Some(cause));
    }

    /** `handle_request`, with its loop stopped after `n` iterations if it is still looping. */
    method ServeRequest(request: Request, n: nat) returns (outcome: Outcome)
      modifies this, thread
      ensures (View(), outcome) == HandleRequest(env, old(View()), request, n)
    {
      hide Initialize, RunLive, Fallback, Publish;
      var initialized := InitializeThread();
      if initialized.Err? {
        return Dropped(initialized.error);
      }
      var live := RunLiveThread(request.externalMessageId, request.content, n);
      match live
      case StillRunning => outcome := InProgress;
      case LoopErr(error) => outcome := FallBack(request, error);
      case LoopOk(turn) =>
        var error := PublishTurn(turn);
        outcome := if error.Some? then Dropped(error.value) else Completed(None);
    }

    /**
     * The worker's receive loop over the requests of one thread. From a fresh thread, every history it
     * sent to the provider is paired exactly when it was not torn; none was as long as no batch was broken.
     */
    method ServeAll(jobs: seq<Job>)
      modifies this, thread
      ensures View() == Serve(env, old(View()), jobs)
      ensures Fresh(old(View())) ==> ExactlyPaired(requests) && (intact ==> AllPaired(requests))
    {
      hide HandleRequest, AllPaired, ExactlyPaired, Fresh;
      if Fresh(View()) {
        FreshServesPaired(env, View(), jobs);
      }
      var i := 0;
      while i < |jobs|
        invariant i <= |jobs|
        invariant Serve(env, View(), jobs[i..]) == Serve(env, old(View()), jobs)
      {
        assert jobs[i..][1..] == jobs[i + 1..];
        var outcome := ServeRequest(jobs[i].request, jobs[i].iterations);
        if outcome.InProgress? {
          return;
        }
        i := i + 1;
      }
    }
  }

  lemma FreshServesPaired(env: Env, w: Run, jobs: seq<Job>)
    requires Fresh(w)
    ensures ExactlyPaired(Serve(env, w, jobs).requests)
    ensures Serve(env, w, jobs).intact ==> AllPaired(Serve(env, w, jobs).requests)
  {
    hide Serve, Serializable, WellPaired, WireOf, Fresh;
    EveryRequestPaired(env, w, jobs);
  }

  lemma CompactLeavesToolsets(env: Env, w: Run, callId: Option<string>)
    ensures Compact(env, w, callId).run.thread.toolsets == w.thread.toolsets
  {
    hide NonSystem, Systems, CompactedMessages;
  }
}
