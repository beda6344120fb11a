/** What a batch leaves in the history however it ends, and exactly when a request can still be sent after it. */
module FailedBatches {
  import opened Wrappers
  import opened ChatModel
  import opened OpenAiMessages
  import opened ThreadAggregate
  import opened AgentLoop
  import opened AgentTurn
  import opened ToolPairing

  // ---- Histories grow with their logs ----------------------------------------------------------

  /** From `w` to `w'` the log grew by `added`, and the history changed as `added` says. */
  predicate Grows(w: Run, w': Run, added: seq<LogEntry>) {
    && LogWithoutSystem(added)
    && w'.log == w.log + added
    && w'.thread.messages == HistoryOf(w.thread.messages, added)
  }

  lemma {:induction false} LogAppend(a: seq<LogEntry>, b: seq<LogEntry>)
    ensures LastRewrite(a + b) == if LastRewrite(b).Some? then LastRewrite(b) else LastRewrite(a)
    ensures SinceRewrite(a + b) == if LastRewrite(b).Some? then SinceRewrite(b) else SinceRewrite(a) + SinceRewrite(b)
    decreases |b|
  {
    if b == [] {
      assert a + b == a;
      assert SinceRewrite(a) + [] == SinceRewrite(a);
    } else {
      var front := b[..|b| - 1];
      assert (a + b)[..|a + b| - 1] == a + front && (a + b)[|a + b| - 1] == b[|b| - 1];
      LogAppend(a, front);
    }
  }

  lemma {:induction false} HistoryThen(h: seq<Message>, a: seq<LogEntry>, b: seq<LogEntry>)
    requires LogWithoutSystem(a) && LogWithoutSystem(b)
    ensures LogWithoutSystem(a + b) && HistoryOf(HistoryOf(h, a), b) == HistoryOf(h, a + b)
    decreases |b|
  {
    hide HistoryOf, Systems, NoSystem;
    if b == [] {
      assert a + b == a;
      NothingLogged(HistoryOf(h, a));
    } else {
      var front, last := b[..|b| - 1], b[|b| - 1];
      assert LogWithoutSystem(front);
      HistoryThen(h, a, front);
      assert b == front + [last] && a + b == a + front + [last];
      LogSnoc(HistoryOf(h, a), front, last);
      LogSnoc(h, a + front, last);
    }
  }

  lemma NothingLogged(h: seq<Message>)
    ensures HistoryOf(h, []) == h
  {
  }

  lemma GrowsNothing(w: Run, w': Run)
    requires w'.log == w.log && w'.thread.messages == w.thread.messages
    ensures Grows(w, w', [])
  {
    NothingLogged(w.thread.messages);
  }

  lemma GrowsThen(a: Run, b: Run, c: Run, x: seq<LogEntry>, y: seq<LogEntry>)
    requires Grows(a, b, x) && Grows(b, c, y)
    ensures Grows(a, c, x + y)
  {
    hide HistoryOf, LogWithoutSystem;
    HistoryThen(a.thread.messages, x, y);
    assert a.log + x + y == a.log + (x + y);
  }

  lemma OneAppended(h: seq<Message>, m: Message)
    requires m.role != System
    ensures LogWithoutSystem([Appended(m)]) && HistoryOf(h, [Appended(m)]) == h + [m]
    ensures LastRewrite([Appended(m)]) == None && SinceRewrite([Appended(m)]) == [m]
  {
    var log := [Appended(m)];
    assert log[..|log| - 1] == [];
    assert LastRewrite(log) == LastRewrite([]);
    assert SinceRewrite(log) == SinceRewrite([]) + [m] == [m];
  }

  lemma OneRewritten(h: seq<Message>, r: seq<Message>)
    requires NoSystem(r)
    ensures LogWithoutSystem([Rewritten(r)]) && HistoryOf(h, [Rewritten(r)]) == Systems(h) + r
    ensures LastRewrite([Rewritten(r)]) == Some(r) && SinceRewrite([Rewritten(r)]) == []
  {
  }

  // ---- What each step of a batch adds ----------------------------------------------------------

  /** A failed commit has staged its message all the same. */
  lemma CommitGrows(o: Origin, env: Env, w: Run, message: Message, events: seq<TurnEvent>)
    requires TurnInvariant(o, env, w) && NoCompact(events) && message.role != System
    ensures TurnInvariant(o, env, Commit(env, w, message, events).run)
    ensures Grows(w, Commit(env, w, message, events).run, [Appended(message)])
  {
    hide TurnInvariant, Commit, HistoryOf, LogWithoutSystem;
    OpenTurns(o, env, w);
    CommitKeeps(o, env, w, message, events);
    CommitOutcome(env, w, message, events);
    OneAppended(w.thread.messages, message);
  }

  /** An assistant message without calls, and a user message after it. */
  predicate SummaryRoles(r: seq<Message>) {
    |r| == 2 && r[0].role == Assistant && r[0].toolCalls == [] && r[1].role == User
  }

  /** What a compaction adds: its rewrite, or nothing. */
  predicate RewriteOrNothing(added: seq<LogEntry>) {
    added == [] || (|added| == 1 && added[0].Rewritten? && SummaryRoles(added[0].replacement))
  }

  lemma CompactGrows(env: Env, w: Run, callId: Option<string>) returns (added: seq<LogEntry>)
    requires w.thread.turn.Some?
    ensures RewriteOrNothing(added) && Grows(w, Compact(env, w, callId).run, added)
    ensures added != [] <==> Compact(env, w, callId).result == Ok(true)
  {
    hide NonSystem, HistoryOf, Systems, LogWithoutSystem, CompactedNote;
    var c := Compact(env, w, callId);
    if c.result == Ok(true) {
      var r := CompactedMessages(env.summarize(w.clock + 1).text);
      added := [Rewritten(r)];
      OneRewritten(w.thread.messages, r);
    } else {
      added := [];
      GrowsNothing(w, c.run);
    }
  }

  lemma CompactFailedGrows(env: Env, w: Run, call: ToolCall, message: string)
    ensures Grows(w, CompactFailed(env, w, call, message).run, [])
  {
    hide Grows;
    GrowsNothing(w, CompactFailed(env, w, call, message).run);
  }

  lemma ModelCompactGrows(o: Origin, env: Env, w: Run, call: ToolCall) returns (added: seq<LogEntry>)
    requires TurnInvariant(o, env, w)
    ensures RewriteOrNothing(added) && Grows(w, ModelCompact(env, w, call).run, added)
    ensures added != [] <==> env.compactEnabled && Compact(env, w, Some(call.id)).result == Ok(true)
  {
    hide TurnInvariant, Compact, CompactFailed, Grows, RewriteOrNothing;
    OpenTurns(o, env, w);
    if !env.compactEnabled {
      CompactFailedGrows(env, w, call, "compact runtime is disabled");
      added := [];
      NothingIsFine();
    } else {
      added := CompactGrows(env, w, Some(call.id));
      var compacted := Compact(env, w, Some(call.id));
      if compacted.result.Err? {
        CompactFailedGrows(env, compacted.run, call, Describe(compacted.result.error));
      } else {
        RecordFrame(Tick(compacted.run.(intact := compacted.run.intact && !compacted.result.value)), call, false);
        GrowsNothing(compacted.run, ModelCompact(env, w, call).run);
      }
      GrowsThen(w, compacted.run, ModelCompact(env, w, call).run, added, []);
      assert added + [] == added;
    }
  }

  lemma NothingIsFine()
    ensures RewriteOrNothing([])
  {
  }

  lemma CallToolGrows(env: Env, w: Run, call: ToolCall)
    ensures Grows(w, CallTool(env, w, call).run, [])
  {
    hide Grows;
    GrowsNothing(w, CallTool(env, w, call).run);
  }

  /** Tool results that say which call they answer. */
  predicate Results(messages: seq<Message>) {
    forall i | 0 <= i < |messages| :: messages[i].role == ToolResult && messages[i].toolCallId.Some?
  }

  /**
   * What the tool loop adds: since the last rewrite only results, and without a rewrite the answers
   * to the first calls, in order.
   */
  predicate ToolsLog(added: seq<LogEntry>, calls: seq<ToolCall>) {
    var since, rewrite := SinceRewrite(added), LastRewrite(added);
    && Results(since)
    && (rewrite.Some? ==> SummaryRoles(rewrite.value))
    && (rewrite.None? ==> |since| <= |calls| && AnswersAll(since, calls[..|since|]))
  }

  /** The call asks for a compaction, and gets one that rewrites the history. */
  predicate Rewrites(env: Env, w: Run, call: ToolCall) {
    && call.name == "compact" && env.compactEnabled && NonSystem(w.thread.messages) != []
    && env.hook(w.clock) && env.hook(w.clock + 1) && env.summarize(w.clock + 2).Summary?
  }

  /** The step at which the hook that reports the outcome of a call is run. */
  function OutcomeHook(env: Env, w: Run, call: ToolCall): nat {
    if call.name != "compact" then w.clock + 2
    else if !env.compactEnabled || w.thread.messages == [] then w.clock + 1
    else if !env.hook(w.clock + 1) || NonSystem(w.thread.messages) == [] then w.clock + 2
    else w.clock + 3
  }

  /** The call gets as far as its result message: the hooks before it and after its outcome succeed. */
  predicate GetsAnswer(env: Env, w: Run, call: ToolCall) {
    env.hook(w.clock) && env.hook(OutcomeHook(env, w, call))
  }

  lemma CompactExactly(env: Env, w: Run, callId: Option<string>)
    requires w.thread.turn.Some?
    ensures Compact(env, w, callId).result == Ok(true)
       <==> NonSystem(w.thread.messages) != [] && env.hook(w.clock) && env.summarize(w.clock + 1).Summary?
  {
    hide ReplaceAfterCompaction, CompactedMessages, Buffer;
  }

  lemma CompactSteps(env: Env, w: Run, callId: Option<string>)
    requires w.thread.turn.Some?
    ensures var c := Compact(env, w, callId);
            && c.run.thread.turn.Some?
            && c.run.clock == if w.thread.messages == [] then w.clock
                              else if !env.hook(w.clock) || NonSystem(w.thread.messages) == [] then w.clock + 1
                              else w.clock + 2
  {
    hide NonSystem, Systems, CompactedMessages, CompactedNote;
  }

  /** The outcome of a call is an answer exactly when the hook that reports it succeeds. */
  lemma OutcomeExactly(env: Env, w: Run, call: ToolCall)
    requires w.thread.turn.Some?
    ensures var v := Tick(w);
            var called := if call.name == "compact" then ModelCompact(env, v, call) else CallTool(env, v, call);
            called.result.Ok? <==> env.hook(OutcomeHook(env, w, call))
  {
    hide Compact, NonSystem, Record, Buffer, Describe;
    CompactSteps(env, Tick(w), Some(call.id));
  }

  /** What one call adds: perhaps a rewrite, then its answer unless it failed before that. */
  lemma RunToolGrows(o: Origin, env: Env, w: Run, call: ToolCall) returns (added: seq<LogEntry>)
    requires TurnInvariant(o, env, w)
    ensures TurnInvariant(o, env, RunTool(env, w, call).run)
    ensures Grows(w, RunTool(env, w, call).run, added) && ToolsLog(added, [call])
    ensures LastRewrite(added).Some? <==> Rewrites(env, w, call)
    ensures SinceRewrite(added) != [] <==> GetsAnswer(env, w, call)
    ensures RunTool(env, w, call).error.None? ==> GetsAnswer(env, w, call)
  {
    hide TurnInvariant, ModelCompact, CallTool, Compact, Commit, Grows, RewriteOrNothing, ToolsLog;
    hide LastRewrite, SinceRewrite, OutcomeHook, NonSystem;
    RunToolKeeps(o, env, w, call);
    var ticked := Tick(w);
    OpenTurns(o, env, w);
    OutcomeExactly(env, w, call);
    CompactExactly(env, ticked, Some(call.id));
    GrowsNothing(w, ticked);
    FrameKeeps(o, env, w, ticked);
    var called := if call.name == "compact" then ModelCompact(env, ticked, call) else CallTool(env, ticked, call);
    var front: seq<LogEntry> := [];
    NothingIsFine();
    if !env.hook(w.clock) {
      added := [];
      FewToolsLogged(front, None, call);
      assert front + [] == front;
    } else {
      if call.name == "compact" {
        front := ModelCompactGrows(o, env, ticked, call);
        ModelCompactKeeps(o, env, ticked, call);
      } else {
        CallToolGrows(env, ticked, call);
        CallToolKeeps(o, env, ticked, call);
      }
      GrowsThen(w, ticked, called.run, [], front);
      assert [] + front == front;
      if called.result.Err? {
        added := front;
        FewToolsLogged(front, None, call);
        assert front + [] == front;
      } else {
        var outcome := called.result.value;
        var answer := ToolResultMessage(call, outcome.content, outcome.isError);
        CommitGrows(o, env, called.run, answer, [ResultEvent(call, outcome.content, outcome.isError)]);
        added := front + [Appended(answer)];
        GrowsThen(w, called.run, RunTool(env, w, call).run, front, [Appended(answer)]);
        FewToolsLogged(front, Some(answer), call);
      }
    }
  }

  lemma FewToolsLogged(front: seq<LogEntry>, answer: Option<Message>, call: ToolCall)
    requires RewriteOrNothing(front) && (answer.Some? ==> Answers(answer.value, call))
    ensures var added := front + (if answer.Some? then [Appended(answer.value)] else []);
            && ToolsLog(added, [call])
            && (LastRewrite(added).Some? <==> front != [])
            && SinceRewrite(added) == if answer.Some? then [answer.value] else []
  {
    assert front != [] ==> front == [front[0]];
    if answer.Some? {
      LogAppend(front, [Appended(answer.value)]);
      OneAppended([], answer.value);
      assert [] + [answer.value] == [answer.value];
    } else {
      assert front + [] == front;
    }
  }

  /** One call and then the rest of its batch. */
  lemma ToolsLogCons(x: seq<LogEntry>, y: seq<LogEntry>, calls: seq<ToolCall>)
    requires calls != [] && ToolsLog(x, [calls[0]]) && SinceRewrite(x) != [] && ToolsLog(y, calls[1..])
    ensures ToolsLog(x + y, calls)
  {
    hide SinceRewrite, LastRewrite, SummaryRoles;
    LogAppend(x, y);
    if LastRewrite(y).None? {
      var a, b := SinceRewrite(x), SinceRewrite(y);
      if LastRewrite(x).None? {
        assert |a| == 1 && Answers(a[0], [calls[0]][..1][0]);
        forall i | 0 <= i < |a + b| ensures Answers((a + b)[i], calls[..|a + b|][i]) {
          if i > 0 {
            assert Answers(b[i - 1], calls[1..][..|b|][i - 1]);
          }
        }
      }
    }
  }

  /** What a tool loop that ran to its end adds: after a rewrite at least one result, without one all of them. */
  predicate WholeTools(added: seq<LogEntry>, calls: seq<ToolCall>) {
    if LastRewrite(added).Some? then SinceRewrite(added) != [] else |SinceRewrite(added)| == |calls|
  }

  lemma WholeToolsCons(x: seq<LogEntry>, y: seq<LogEntry>, calls: seq<ToolCall>)
    requires calls != [] && ToolsLog(x, [calls[0]]) && SinceRewrite(x) != [] && WholeTools(y, calls[1..])
    ensures WholeTools(x + y, calls)
  {
    hide SinceRewrite, LastRewrite, SummaryRoles;
    LogAppend(x, y);
  }

  lemma NoToolsAreWhole(calls: seq<ToolCall>)
    requires calls == []
    ensures WholeTools([], calls)
  {
  }

  lemma ToolsLogPrefix(x: seq<LogEntry>, calls: seq<ToolCall>)
    requires calls != [] && ToolsLog(x, [calls[0]])
    ensures ToolsLog(x, calls)
  {
    hide SinceRewrite, LastRewrite, SummaryRoles;
    if LastRewrite(x).None? {
      var n := |SinceRewrite(x)|;
      assert forall i | 0 <= i < n :: [calls[0]][..n][i] == calls[..n][i];
    }
  }

  lemma NoToolsLogged(calls: seq<ToolCall>)
    ensures ToolsLog([], calls)
  {
  }

  /** What the tool loop adds, however it ends. */
  lemma {:induction false} RunToolsGrow(o: Origin, env: Env, w: Run, calls: seq<ToolCall>)
      returns (added: seq<LogEntry>)
    requires TurnInvariant(o, env, w)
    ensures Grows(w, RunTools(env, w, calls).run, added) && ToolsLog(added, calls)
    ensures RunTools(env, w, calls).error.None? ==> WholeTools(added, calls)
    decreases |calls|
  {
    hide TurnInvariant, RunTool, Grows, ToolsLog, WholeTools, SinceRewrite;
    if calls == [] {
      added := [];
      NoToolsLogged(calls);
      NoToolsAreWhole(calls);
      GrowsNothing(w, w);
    } else {
      added := RunToolGrows(o, env, w, calls[0]);
      var first := RunTool(env, w, calls[0]);
      if first.error.Some? {
        ToolsLogPrefix(added, calls);
      } else {
        var more := RunToolsGrow(o, env, first.run, calls[1..]);
        GrowsThen(w, first.run, RunTools(env, w, calls).run, added, more);
        ToolsLogCons(added, more, calls);
        if RunTools(env, w, calls).error.None? {
          WholeToolsCons(added, more, calls);
        }
        added := added + more;
      }
    }
  }

  /** The log of announced calls. */
  function CallsLog(calls: seq<ToolCall>): (log: seq<LogEntry>)
    ensures |log| == |calls|
    ensures forall i | 0 <= i < |log| :: log[i] == Appended(ToolCallMessage(calls[i]))
  {
    seq(|calls|, i requires 0 <= i < |calls| => Appended(ToolCallMessage(calls[i])))
  }

  lemma {:induction false} CallsLogged(calls: seq<ToolCall>)
    ensures LastRewrite(CallsLog(calls)) == None && SinceRewrite(CallsLog(calls)) == CallMessages(calls)
  {
    if calls == [] {
      assert CallsLog(calls) == [];
    } else {
      CallsLogged(calls[1..]);
      assert CallsLog(calls) == [Appended(ToolCallMessage(calls[0]))] + CallsLog(calls[1..]);
      LogAppend([Appended(ToolCallMessage(calls[0]))], CallsLog(calls[1..]));
      OneAppended([], ToolCallMessage(calls[0]));
    }
  }

  /** What the announcing loop adds, however it ends: the messages of the first calls, one at least. */
  lemma {:induction false} CommitCallsGrow(o: Origin, env: Env, w: Run, calls: seq<ToolCall>) returns (announced: nat)
    requires TurnInvariant(o, env, w)
    ensures announced <= |calls| && (calls != [] ==> announced > 0)
    ensures CommitCalls(env, w, calls).error.None? ==> announced == |calls|
    ensures Grows(w, CommitCalls(env, w, calls).run, CallsLog(calls[..announced]))
    decreases |calls|
  {
    hide TurnInvariant, Commit, Grows, Preview, CountRole, LastRewrite, SinceRewrite;
    if calls == [] {
      announced := 0;
      GrowsNothing(w, w);
      assert CallsLog(calls[..0]) == [];
    } else {
      CommitGrows(o, env, w, ToolCallMessage(calls[0]), [CallEvent(calls[0])]);
      var first := Commit(env, w, ToolCallMessage(calls[0]), [CallEvent(calls[0])]);
      if first.error.Some? {
        announced := 1;
        assert CallsLog(calls[..1]) == [Appended(ToolCallMessage(calls[0]))];
      } else {
        var more := CommitCallsGrow(o, env, first.run, calls[1..]);
        announced := more + 1;
        GrowsThen(w, first.run, CommitCalls(env, w, calls).run,
                  [Appended(ToolCallMessage(calls[0]))], CallsLog(calls[1..][..more]));
        assert CallsLog(calls[..announced]) == [Appended(ToolCallMessage(calls[0]))] + CallsLog(calls[1..][..more]);
      }
    }
  }

  // ---- What a batch leaves -----------------------------------------------------------------------

  /** The announced calls, and then what the tools added, if all calls were announced. */
  predicate BatchLog(calls: seq<ToolCall>, said: seq<ToolCall>, tools: seq<LogEntry>) {
    said != [] && said <= calls && ToolsLog(tools, calls) && (tools != [] ==> said == calls)
  }

  /** What a batch adds to log and history, however it ends. */
  lemma BatchLeaves(o: Origin, env: Env, w: Run, calls: seq<ToolCall>)
      returns (said: seq<ToolCall>, tools: seq<LogEntry>)
    requires TurnInvariant(o, env, w) && calls != []
    ensures BatchLog(calls, said, tools)
    ensures Grows(w, Batch(env, w, calls).run, CallsLog(said) + tools)
    ensures Batch(env, w, calls).error.None? ==> said == calls && WholeTools(tools, calls)
  {
    hide TurnInvariant, CommitCalls, RunTools, Grows, ToolsLog, WholeTools, Torn, Gained;
    var announced := CommitCallsGrow(o, env, w, calls);
    CommitCallsKeeps(o, env, w, calls);
    var step := CommitCalls(env, w, calls);
    said, tools := calls[..announced], [];
    NoToolsLogged(calls);
    var ran := step.run;
    GrowsNothing(ran, ran);
    if step.error.None? {
      tools := RunToolsGrow(o, env, step.run, calls);
      ran := RunTools(env, step.run, calls).run;
    }
    GrowsThen(w, step.run, ran, CallsLog(said), tools);
    GrowsNothing(ran, Batch(env, w, calls).run);
    GrowsThen(w, ran, Batch(env, w, calls).run, CallsLog(said) + tools, []);
    assert CallsLog(said) + tools + [] == CallsLog(said) + tools;
  }

  lemma {:induction false} CountRoleAppend(a: seq<Message>, b: seq<Message>, role: Role)
    ensures CountRole(a + b, role) == CountRole(a, role) + CountRole(b, role)
  {
    if a == [] {
      assert a + b == b;
    } else {
      assert (a + b)[1..] == a[1..] + b;
      CountRoleAppend(a[1..], b, role);
    }
  }

  lemma {:induction false} CountRoleAll(a: seq<Message>, role: Role, other: Role)
    requires (forall i | 0 <= i < |a| :: a[i].role == role) && role != other
    ensures CountRole(a, role) == |a| && CountRole(a, other) == 0
  {
    if a != [] {
      assert forall i | 0 <= i < |a[1..]| :: a[1..][i] == a[i + 1];
      CountRoleAll(a[1..], role, other);
    }
  }

  lemma BatchSerializable(h: seq<Message>, calls: seq<ToolCall>, results: seq<Message>)
    requires Serializable(h) && Results(results)
    ensures Serializable(h + CallMessages(calls) + results)
  {
    hide CallMessages;
    CallMessagesAre(calls);
    CallsSerializable(CallMessages(calls));
    SerializableAppend(h, CallMessages(calls));
    SerializableAppend(h + CallMessages(calls), results);
  }

  lemma ResultsOf(results: seq<Message>, calls: seq<ToolCall>)
    requires AnswersAll(results, calls)
    ensures Results(results)
  {
  }

  lemma SerializablePlain(h: seq<Message>, m: Message)
    requires Serializable(h) && Plain(m)
    ensures Serializable(h + [m])
  {
    SerializableAppend(h, [m]);
  }

  /** Once a plain message follows, nothing mends a batch that is short of answers. */
  lemma UnansweredStands(h: seq<Message>, calls: seq<ToolCall>, results: seq<Message>, m: Message)
    requires Ready(h) && |results| < |calls| && AnswersAll(results, calls[..|results|]) && Plain(m)
    ensures Hopeless(h + CallMessages(calls) + results + [m])
  {
    hide WireOf, CallMessages, WellPaired, Plain, Ready, AnswersAll;
    var after := h + CallMessages(calls) + results + [m];
    forall rest: seq<Message> ensures !WellPaired(WireOf(after + rest)) {
      UnansweredCallsBreakPairing(h, calls, results, m, rest);
      assert after + rest == h + (CallMessages(calls) + (results + ([m] + rest)));
    }
  }

  lemma AnsweredIsReady(h: seq<Message>, calls: seq<ToolCall>, results: seq<Message>)
    requires Ready(h) && calls != [] && AnswersAll(results, calls)
    ensures Ready(h + CallMessages(calls) + results)
  {
    hide CallMessages, Ready;
    var after := h + CallMessages(calls) + results;
    assert after[|h + CallMessages(calls)|..] == results;
    BatchKeepsReady(h, after, calls);
  }

  /**
   * Calls and the first answers to them: if every call is answered the history can be sent and go on,
   * and otherwise no plain message, nor anything after it, mends it.
   */
  lemma AnsweredStands(h: seq<Message>, calls: seq<ToolCall>, results: seq<Message>, m: Message)
    requires Ready(h) && calls != [] && |results| <= |calls| && AnswersAll(results, calls[..|results|]) && Plain(m)
    ensures |results| == |calls| ==> Ready(h + CallMessages(calls) + results)
    ensures Standing(|results| < |calls|, h + CallMessages(calls) + results + [m])
  {
    hide CallMessages, Plain, Ready, Hopeless, AnswersAll, Results, Serializable;
    if |results| < |calls| {
      ResultsOf(results, calls[..|results|]);
      ReadyIsPaired(h);
      BatchSerializable(h, calls, results);
      SerializablePlain(h + CallMessages(calls) + results, m);
      UnansweredStands(h, calls, results, m);
    } else {
      assert calls[..|results|] == calls;
      AnsweredIsReady(h, calls, results);
      StandingOfReady(h + CallMessages(calls) + results);
      PlainKeepsStanding(false, h + CallMessages(calls) + results, m);
    }
  }

  /** After calls and the first answers to them, a plain message can be sent exactly when every call is answered. */
  lemma AnsweredExactly(h: seq<Message>, calls: seq<ToolCall>, results: seq<Message>, m: Message)
    requires Ready(h) && calls != [] && |results| <= |calls| && AnswersAll(results, calls[..|results|]) && Plain(m)
    ensures WellPaired(WireOf(h + (CallMessages(calls) + (results + [m])))) <==> |results| == |calls|
  {
    hide *;
    AnsweredStands(h, calls, results, m);
    StandingDecides(|results| < |calls|, h + CallMessages(calls) + results + [m]);
    assert h + (CallMessages(calls) + (results + [m])) == h + CallMessages(calls) + results + [m];
  }

  /** A rewritten history can be sent and go on; with results left over from its batch nothing mends it. */
  lemma RewrittenStands(h: seq<Message>, pair: seq<Message>, results: seq<Message>)
    requires SummaryRoles(pair) && Results(results)
    ensures Standing(results != [], Systems(h) + pair + results)
  {
    hide WireOf, WellPaired, Systems, Serializable, Ready;
    var rewritten := Systems(h) + pair;
    SystemsArePlain(h);
    PlainIsReady(rewritten);
    ReadyIsPaired(rewritten);
    if results == [] {
      assert rewritten + results == rewritten;
    } else {
      ResultsSerialize(results);
      SerializableAppend(rewritten, results);
      forall rest: seq<Message> ensures !WellPaired(WireOf(rewritten + results + rest)) {
        var tail := results[1..] + rest;
        assert rewritten + results + rest == rewritten + ([results[0]] + tail);
        assert rewritten[|rewritten| - 1] == pair[1];
        WireOfSplit(rewritten, [results[0]] + tail);
        PairedPrefix(WireOf(rewritten), WireOf([results[0]] + tail));
        ToolFirst(results[0], tail);
        NotPaired(WireOf([results[0]] + tail));
      }
    }
  }

  lemma ResultsSerialize(results: seq<Message>)
    requires Results(results)
    ensures Serializable(results)
  {
  }

  /** After a rewrite and results left over from its batch, a plain message can be sent exactly when there are none. */
  lemma RewrittenExactly(h: seq<Message>, pair: seq<Message>, results: seq<Message>, m: Message)
    requires SummaryRoles(pair) && Plain(m) && Results(results)
    ensures WellPaired(WireOf(Systems(h) + pair + (results + [m]))) <==> results == []
  {
    hide *;
    RewrittenStands(h, pair, results);
    PlainKeepsStanding(results != [], Systems(h) + pair + results, m);
    StandingDecides(results != [], Systems(h) + pair + results + [m]);
    assert Systems(h) + pair + (results + [m]) == Systems(h) + pair + results + [m];
  }

  lemma NotPaired(w: seq<Wire>)
    requires w != [] && w[0].ToolWire?
    ensures !WellPaired(w)
  {
  }

  /** The history after a batch, and whether the batch tore it, by the calls it announced and what its tools added. */
  lemma BatchHistory(torn: bool, h: seq<Message>, calls: seq<ToolCall>, said: seq<ToolCall>, tools: seq<LogEntry>)
    requires BatchLog(calls, said, tools)
    ensures var added, since := CallsLog(said) + tools, SinceRewrite(tools);
            && LastRewrite(added) == LastRewrite(tools) && Results(since)
            && (LastRewrite(tools).Some? ==>
                  && SummaryRoles(LastRewrite(tools).value)
                  && HistoryOf(h, added) == Systems(h) + LastRewrite(tools).value + since
                  && Torn(torn, added) == (since != []))
            && (LastRewrite(tools).None? ==>
                  && |since| <= |said| && AnswersAll(since, said[..|since|])
                  && HistoryOf(h, added) == h + CallMessages(said) + since
                  && Torn(torn, added) == (torn || |since| < |said|))
  {
    hide CallMessages, Systems, SinceRewrite, LastRewrite, CountRole, SummaryRoles, WireOf;
    var since := SinceRewrite(tools);
    CallsLogged(said);
    LogAppend(CallsLog(said), tools);
    if LastRewrite(tools).None? {
      NothingSince(tools);
      assert calls[..|since|] == said[..|since|] by { assert since != [] ==> said == calls; }
      assert h + (CallMessages(said) + since) == h + CallMessages(said) + since;
      CallMessagesAre(said);
      CountRoleAppend(CallMessages(said), since, Toolcall);
      CountRoleAppend(CallMessages(said), since, ToolResult);
      CountRoleAll(CallMessages(said), Toolcall, ToolResult);
      CountRoleAll(since, ToolResult, Toolcall);
    }
  }

  lemma NothingSince(log: seq<LogEntry>)
    ensures log == [] ==> SinceRewrite(log) == []
  {
  }

  /**
   * What a batch added decides how the history stands, once a plain message follows; after a batch
   * that ran to its end it stands so at once, and such a batch tears it exactly by a rewrite.
   */
  lemma BatchStands(torn: bool, h: seq<Message>, calls: seq<ToolCall>, said: seq<ToolCall>, tools: seq<LogEntry>,
      m: Message)
    requires Standing(torn, h) && Plain(m) && BatchLog(calls, said, tools)
    ensures var added := CallsLog(said) + tools;
            && Standing(Torn(torn, added), HistoryOf(h, added) + [m])
            && (said == calls && WholeTools(tools, calls) ==>
                  && Standing(Torn(torn, added), HistoryOf(h, added))
                  && (Torn(torn, added) <==> torn || LastRewrite(added).Some?))
  {
    hide WireOf, WellPaired, Ready, Plain, CallMessages, Systems, SinceRewrite, LastRewrite, SummaryRoles;
    hide HistoryOf, Torn, AnswersAll, Results, Hopeless, Serializable, ToolsLog;
    var added, since := CallsLog(said) + tools, SinceRewrite(tools);
    BatchHistory(torn, h, calls, said, tools);
    StandingDecides(torn, h);
    if LastRewrite(tools).Some? {
      RewrittenStands(h, LastRewrite(tools).value, since);
      PlainKeepsStanding(since != [], HistoryOf(h, added), m);
    } else if torn {
      HopelessStays(h, CallMessages(said) + since);
      assert h + (CallMessages(said) + since) == HistoryOf(h, added);
      BatchSerializable(h, said, since);
      PlainKeepsStanding(true, HistoryOf(h, added), m);
    } else {
      AnsweredStands(h, said, since, m);
      BatchSerializable(h, said, since);
    }
  }

  /** How a batch leaves a history, torn before or not. */
  lemma BatchKeepsStanding(o: Origin, env: Env, w: Run, calls: seq<ToolCall>, m: Message)
    requires TurnInvariant(o, env, w) && Standing(w.torn, w.thread.messages) && calls != [] && Plain(m)
    ensures var (b, error) := (Batch(env, w, calls).run, Batch(env, w, calls).error);
            && w.log <= b.log
            && b.torn == Torn(w.torn, b.log[|w.log|..])
            && Standing(b.torn, b.thread.messages + [m])
            && (error.None? ==>
                  && Standing(b.torn, b.thread.messages)
                  && (b.torn <==> w.torn || LastRewrite(b.log[|w.log|..]).Some?))
  {
    hide TurnInvariant, Standing, Plain, CommitCalls, RunTools, HistoryOf, BatchLog, LogWithoutSystem, Torn;
    hide LastRewrite, WholeTools;
    var said, tools := BatchLeaves(o, env, w, calls);
    BatchStands(w.torn, w.thread.messages, calls, said, tools, m);
    assert Batch(env, w, calls).run.log[|w.log|..] == CallsLog(said) + tools;
  }

  /**
   * From any history that could be sent, and however a batch ended, the request after the next plain
   * message is paired exactly when the batch left every announced call answered, or ended in a rewrite.
   */
  lemma PairedAfterBatch(o: Origin, env: Env, w: Run, calls: seq<ToolCall>, m: Message)
    requires TurnInvariant(o, env, w) && Ready(w.thread.messages) && calls != [] && Plain(m)
    ensures var after := Batch(env, w, calls).run;
            && w.log <= after.log
            && (WellPaired(WireOf(after.thread.messages + [m])) <==> Sendable(after.log[|w.log|..]))
  {
    hide TurnInvariant, Ready, Plain, Batch, WireOf, WellPaired, Sendable, HistoryOf, BatchLog, LogWithoutSystem;
    hide WholeTools, Hopeless;
    var said, tools := BatchLeaves(o, env, w, calls);
    ReadyIsPaired(w.thread.messages);
    BatchStands(false, w.thread.messages, calls, said, tools, m);
    assert Batch(env, w, calls).run.log[|w.log|..] == CallsLog(said) + tools;
    StandingDecides(Torn(false, CallsLog(said) + tools), Batch(env, w, calls).run.thread.messages + [m]);
  }

  /**
   * After a batch that ran to its end the loop sends the history as it is: it is paired exactly when
   * no call of the batch rewrote it.
   */
  lemma PairedAtOnce(o: Origin, env: Env, w: Run, calls: seq<ToolCall>)
    requires TurnInvariant(o, env, w) && Ready(w.thread.messages) && calls != []
    requires Batch(env, w, calls).error.None?
    ensures var after := Batch(env, w, calls).run;
            && w.log <= after.log
            && (WellPaired(WireOf(after.thread.messages)) <==> LastRewrite(after.log[|w.log|..]).None?)
  {
    hide TurnInvariant, Ready, Batch, WireOf, WellPaired, HistoryOf, BatchLog, LogWithoutSystem;
    hide WholeTools, Hopeless, Torn, LastRewrite;
    var said, tools := BatchLeaves(o, env, w, calls);
    ReadyIsPaired(w.thread.messages);
    BatchStands(false, w.thread.messages, calls, said, tools, NewMessage(User, ""));
    assert Batch(env, w, calls).run.log[|w.log|..] == CallsLog(said) + tools;
    StandingDecides(Torn(false, CallsLog(said) + tools), Batch(env, w, calls).run.thread.messages);
  }
}
