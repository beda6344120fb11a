/** The thread's audit trail: one tool event for every call of a batch that ran to its end. */
module ToolRecords {
  import opened Wrappers
  import opened ChatModel
  import opened ThreadAggregate
  import opened AgentLoop
  import opened AgentTurn

  /** What a tool event says about its call, and whether it failed. */
  datatype Acted = Acted(toolName: string, toolCallId: string, failed: bool)

  function ActedIn(events: seq<ToolEvent>): (r: seq<Acted>)
    ensures |r| == |events|
    ensures forall i | 0 <= i < |r| ::
              r[i] == Acted(events[i].toolName, events[i].toolCallId, events[i].isError)
  {
    seq(|events|, i requires 0 <= i < |events| =>
      Acted(events[i].toolName, events[i].toolCallId, events[i].isError))
  }

  /** The record that a call leaves: its name, its id, and whether what came of it was a failure. */
  function ActedBy(env: Env, w: Run, call: ToolCall): Acted {
    Acted(call.name, call.id, OutcomeOf(env, w, call).1)
  }

  /** The records of calls made one after another. */
  function ActedFor(env: Env, w: Run, calls: seq<ToolCall>): (r: seq<Acted>)
    ensures |r| == |calls|
    ensures forall i | 0 <= i < |r| :: r[i].toolName == calls[i].name && r[i].toolCallId == calls[i].id
    decreases |calls|
  {
    if calls == [] then []
    else [ActedBy(env, w, calls[0])] + ActedFor(env, RunTool(env, w, calls[0]).run, calls[1..])
  }

  /** The tool actions that the open turn holds. */
  function OpenActions(w: Run): seq<Acted> {
    if w.thread.turn.Some? then ActedIn(w.thread.turn.value.toolEvents) else []
  }

  /** From `w` to `w'` the turn stayed open and took in exactly `acted`. */
  predicate Records(w: Run, w': Run, acted: seq<Acted>) {
    w.thread.turn.Some? && w'.thread.turn.Some? && OpenActions(w') == OpenActions(w) + acted
  }

  lemma RecordsThen(a: Run, b: Run, c: Run, first: seq<Acted>, second: seq<Acted>)
    requires Records(a, b, first) && Records(b, c, second)
    ensures Records(a, c, first + second)
  {
    assert OpenActions(a) + first + second == OpenActions(a) + (first + second);
  }

  lemma RecordRecords(w: Run, call: ToolCall, isError: bool)
    requires w.thread.turn.Some?
    ensures Records(w, RecordTool(w, call, isError), [Acted(call.name, call.id, isError)])
  {
  }

  lemma SameTurnRecords(w: Run, w': Run)
    requires w.thread.turn.Some? && w'.thread.turn.Some?
    requires w'.thread.turn.value.toolEvents == w.thread.turn.value.toolEvents
    ensures Records(w, w', [])
  {
    assert OpenActions(w) + [] == OpenActions(w);
  }

  lemma CommitRecords(env: Env, w: Run, message: Message, events: seq<TurnEvent>)
    requires w.thread.turn.Some?
    ensures Records(w, Commit(env, w, message, events).run, [])
  {
    hide Commit, Dispatches;
    CommitOutcome(env, w, message, events);
    SameTurnRecords(w, Commit(env, w, message, events).run);
  }

  lemma CompactRecords(env: Env, w: Run, callId: Option<string>)
    requires w.thread.turn.Some?
    ensures Records(w, Compact(env, w, callId).run, [])
  {
    hide NonSystem, Systems, CompactedMessages, Records;
    SameTurnRecords(w, Compact(env, w, callId).run);
  }

  lemma CompactFailedRecords(env: Env, w: Run, call: ToolCall, message: string)
    requires w.thread.turn.Some? && CompactFailed(env, w, call, message).result.Ok?
    ensures Records(w, CompactFailed(env, w, call, message).run, [Acted(call.name, call.id, true)])
  {
    hide Records;
    var acted := [Acted(call.name, call.id, true)];
    RecordRecords(Tick(w), call, true);
    var recorded := RecordTool(Tick(w), call, true);
    SameTurnRecords(w, Tick(w));
    SameTurnRecords(recorded, BufferEvent(recorded, CompactTurnEvent(Some(call.id), FailedNote(message), true)));
    RecordsThen(w, Tick(w), recorded, [], acted);
    RecordsThen(w, recorded, CompactFailed(env, w, call, message).run, [] + acted, []);
    assert [] + acted + [] == acted;
  }

  /** A `compact` call is recorded once however it goes, a failed compaction included. */
  lemma ModelCompactRecords(env: Env, w: Run, call: ToolCall)
    requires w.thread.turn.Some? && ModelCompact(env, w, call).result.Ok?
    ensures var called := ModelCompact(env, w, call);
            Records(w, called.run, [Acted(call.name, call.id, called.result.value.isError)])
  {
    hide Records, Compact, Describe, CompactTold, Record, Buffer;
    var acted := [Acted(call.name, call.id, ModelCompact(env, w, call).result.value.isError)];
    if !env.compactEnabled {
      CompactFailedRecords(env, w, call, "compact runtime is disabled");
    } else {
      CompactRecords(env, w, Some(call.id));
      var compacted := Compact(env, w, Some(call.id));
      assert compacted.run.thread.turn.Some? by { RecordsOpen(w, compacted.run, []); }
      if compacted.result.Err? {
        CompactFailedRecords(env, compacted.run, call, Describe(compacted.result.error));
      } else {
        var flagged := Tick(compacted.run.(intact := compacted.run.intact && !compacted.result.value));
        SameTurnRecords(compacted.run, flagged);
        RecordRecords(flagged, call, false);
        RecordsThen(compacted.run, flagged, ModelCompact(env, w, call).run, [], acted);
        assert [] + acted == acted;
      }
      RecordsThen(w, compacted.run, ModelCompact(env, w, call).run, [], acted);
      assert [] + acted == acted;
    }
  }

  lemma RecordsOpen(w: Run, w': Run, acted: seq<Acted>)
    requires Records(w, w', acted)
    ensures w'.thread.turn.Some?
  {
  }

  lemma CallToolRecords(env: Env, w: Run, call: ToolCall)
    requires w.thread.turn.Some? && CallTool(env, w, call).result.Ok?
    ensures Records(w, CallTool(env, w, call).run, [Acted(call.name, call.id, env.tool(w.clock).isError)])
  {
    hide Records;
    var outcome := env.tool(w.clock);
    var called := Tick(Tick(w).(thread := w.thread.(toolsets := outcome.toolsets)));
    SameTurnRecords(w, called);
    RecordRecords(called, call, outcome.isError);
    var acted := [Acted(call.name, call.id, outcome.isError)];
    RecordsThen(w, called, CallTool(env, w, call).run, [], acted);
    assert [] + acted == acted;
  }

  lemma CalledRecords(env: Env, w: Run, call: ToolCall, called: Valued<ToolOutcome>)
    requires w.thread.turn.Some? && called.result.Ok?
    requires called == if call.name == "compact" then ModelCompact(env, Tick(w), call) else CallTool(env, Tick(w), call)
    ensures Records(Tick(w), called.run, [ActedBy(env, w, call)])
  {
    hide Records, ModelCompact, CallTool, OutcomeOf;
    if call.name == "compact" {
      ModelCompactRecords(env, Tick(w), call);
      CompactCallTells(env, w, call);
    } else {
      CallToolRecords(env, Tick(w), call);
      ToolAnswers(env, w, call);
    }
  }

  lemma RunToolRecords(env: Env, w: Run, call: ToolCall)
    requires w.thread.turn.Some? && RunTool(env, w, call).error.None?
    ensures Records(w, RunTool(env, w, call).run, [ActedBy(env, w, call)])
  {
    hide Records, ModelCompact, CallTool, Commit, ActedBy, ToolResultMessage, ResultEvent;
    var acted, ticked := [ActedBy(env, w, call)], Tick(w);
    var called := if call.name == "compact" then ModelCompact(env, ticked, call) else CallTool(env, ticked, call);
    SameTurnRecords(w, ticked);
    CalledRecords(env, w, call, called);
    RecordsOpen(ticked, called.run, acted);
    var outcome := called.result.value;
    CommitRecords(env, called.run, ToolResultMessage(call, outcome.content, outcome.isError),
                  [ResultEvent(call, outcome.content, outcome.isError)]);
    RecordsThen(w, ticked, called.run, [], acted);
    RecordsThen(w, called.run, RunTool(env, w, call).run, [] + acted, []);
    assert [] + acted + [] == acted;
  }

  lemma ToolAnswers(env: Env, w: Run, call: ToolCall)
    requires call.name != "compact"
    ensures OutcomeOf(env, w, call).1 == env.tool(w.clock + 1).isError
  {
  }

  lemma {:induction false} RunToolsRecords(env: Env, w: Run, calls: seq<ToolCall>)
    requires w.thread.turn.Some? && RunTools(env, w, calls).error.None?
    ensures Records(w, RunTools(env, w, calls).run, ActedFor(env, w, calls))
    decreases |calls|
  {
    hide Records, RunTool, ActedBy;
    if calls == [] {
      SameTurnRecords(w, w);
    } else {
      RunToolRecords(env, w, calls[0]);
      var first := RunTool(env, w, calls[0]).run;
      RecordsOpen(w, first, [ActedBy(env, w, calls[0])]);
      RunToolsRecords(env, first, calls[1..]);
      RecordsThen(w, first, RunTools(env, w, calls).run, [ActedBy(env, w, calls[0])],
                  ActedFor(env, first, calls[1..]));
    }
  }

  lemma {:induction false} CommitCallsRecords(env: Env, w: Run, calls: seq<ToolCall>)
    requires w.thread.turn.Some?
    ensures Records(w, CommitCalls(env, w, calls).run, [])
    decreases |calls|
  {
    hide Records, Commit;
    if calls == [] {
      SameTurnRecords(w, w);
    } else {
      var step := Commit(env, w, ToolCallMessage(calls[0]), [CallEvent(calls[0])]);
      CommitRecords(env, w, ToolCallMessage(calls[0]), [CallEvent(calls[0])]);
      if step.error.None? {
        RecordsOpen(w, step.run, []);
        CommitCallsRecords(env, step.run, calls[1..]);
        RecordsThen(w, step.run, CommitCalls(env, w, calls).run, [], []);
        var nothing: seq<Acted> := [];
        assert nothing + nothing == nothing;
      }
    }
  }

  /**
   * A batch that ran to its end recorded exactly its calls, in order, each once, under its own id, and as the success
   * or failure that it was.
   */
  lemma BatchRecords(env: Env, w: Run, calls: seq<ToolCall>)
    requires w.thread.turn.Some? && Batch(env, w, calls).error.None?
    ensures Records(w, Batch(env, w, calls).run, ActedFor(env, CommitCalls(env, w, calls).run, calls))
  {
    hide Records, CommitCalls, RunTools, ActedFor, Torn, Gained;
    CommitCallsRecords(env, w, calls);
    var announced := CommitCalls(env, w, calls).run;
    RecordsOpen(w, announced, []);
    RunToolsRecords(env, announced, calls);
    var ran, acted := RunTools(env, announced, calls).run, ActedFor(env, announced, calls);
    RecordsOpen(announced, ran, acted);
    SameTurnRecords(ran, Batch(env, w, calls).run);
    RecordsThen(w, announced, ran, [], acted);
    RecordsThen(w, ran, Batch(env, w, calls).run, [] + acted, []);
    assert [] + acted + [] == acted;
  }
}
