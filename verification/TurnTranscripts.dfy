/** What a whole turn says: every message and event of it is what the user, the model, a tool or the summarizer said. */
module TurnTranscripts {
  import opened Wrappers
  import opened Text
  import opened ChatModel
  import opened ThreadAggregate
  import opened AgentLoop
  import opened AgentTurn
  import opened FailedBatches
  import opened TurnContents

  // ---- What can be said at one step --------------------------------------------------------------

  /** At step `j` the model answered with a reply that makes this call. */
  predicate Asked(env: Env, j: nat, call: ToolCall) {
    env.generate(j).ModelReply? && call in env.generate(j).calls
  }

  /** `r` stands in for a history with the summary that was given at step `k`. */
  predicate GivenSummary(env: Env, k: nat, r: seq<Message>) {
    env.summarize(k).Summary? && SummaryPair(r, env.summarize(k).text)
  }

  /** What a compact call can be answered with. */
  ghost predicate CompactAnswer(env: Env, k: nat, outcome: (string, bool)) {
    || (!env.compactEnabled && outcome == ("compact runtime is disabled", true))
    || outcome == ("compact skipped: no chat history was available to compact", false)
    || outcome == (Describe(HookError), true)
    || (env.summarize(k).SummarizerFails? && outcome == (env.summarize(k).error, true))
    || (env.summarize(k).Summary? && exists n: nat ::
          outcome == ("compact completed: compacted " + Decimal(n) + " messages from current chat history", false))
  }

  /** At step `k` this came of the call. */
  ghost predicate CameOf(env: Env, k: nat, call: ToolCall, outcome: (string, bool)) {
    if call.name == "compact" then CompactAnswer(env, k, outcome)
    else outcome == (env.tool(k).content, env.tool(k).isError)
  }

  /** A message and its event that tell what the environment said at step `k`, or that the turn failed. */
  ghost predicate Told(env: Env, k: nat, m: Message, e: TurnEvent) {
    match m.role
    case Assistant =>
      || (&& env.generate(k).ModelReply? && env.generate(k).text.Some? && !IsBlank(env.generate(k).text.value)
          && TextTells(m, e, env.generate(k).text.value, false))
      || ("[openjarvis][agent_error] " <= m.content && TextTells(m, e, m.content, true))
    case Toolcall => exists call :: Asked(env, k, call) && CallTells(m, e, call)
    case ToolResult =>
      exists call, outcome, j: nat ::
        j < k && Asked(env, j, call) && CameOf(env, k, call, outcome) && ResultTells(m, e, call, outcome)
    case _ => false
  }

  ghost predicate TellsLast(env: Env, k: nat, m: Message, events: seq<TurnEvent>)
    requires events != []
  {
    Told(env, k, m, events[|events| - 1])
  }

  /**
   * The user's message comes first, without an event. Everything after it tells, in the order of the steps,
   * what the environment said: each appended message with its event, and each rewrite.
   */
  ghost predicate LogTells(env: Env, content: string, log: seq<LogEntry>, events: seq<TurnEvent>, steps: nat)
    decreases |log|
  {
    if |log| <= 1 then log == [Appended(Message(User, content, [], None))] && events == []
    else
      var front, last := log[..|log| - 1], log[|log| - 1];
      if last.Rewritten? then
        exists k: nat :: k < steps && GivenSummary(env, k, last.replacement) && LogTells(env, content, front, events, k)
      else
        && events != []
        && exists k: nat ::
             && k < steps && TellsLast(env, k, last.message, events)
             && LogTells(env, content, front, events[..|events| - 1], k + 1)
  }

  // ---- Each step of a turn adds what was said ----------------------------------------------------

  /** The turn is open, and what it did before step `steps` is told. */
  ghost predicate Telling(env: Env, content: string, w: Run, steps: nat) {
    && w.thread.turn.Some? && steps <= w.clock
    && w.log != [] && LogTells(env, content, w.log, EventsOf(w.dispatched), steps)
  }

  lemma TellsLater(env: Env, content: string, log: seq<LogEntry>, events: seq<TurnEvent>, steps: nat, later: nat)
    requires LogTells(env, content, log, events, steps) && steps <= later
    ensures LogTells(env, content, log, events, later)
  {
  }

  lemma TellingFrame(env: Env, content: string, w: Run, steps: nat, w': Run, later: nat)
    requires Telling(env, content, w, steps) && w'.log == w.log && w'.dispatched == w.dispatched
    requires w'.thread.turn.Some? && steps <= later <= w'.clock
    ensures Telling(env, content, w', later)
  {
    hide LogTells;
    TellsLater(env, content, w.log, EventsOf(w.dispatched), steps, later);
  }

  lemma TellsSnoc(env: Env, content: string, log: seq<LogEntry>, events: seq<TurnEvent>, m: Message, e: TurnEvent,
      k: nat)
    requires log != [] && LogTells(env, content, log, events, k + 1) && Told(env, k, m, e)
    ensures LogTells(env, content, log + [Appended(m)], events + [e], k + 1)
  {
    hide Told;
    var longer, more := log + [Appended(m)], events + [e];
    assert longer[..|longer| - 1] == log && more[..|more| - 1] == events;
    assert TellsLast(env, k, m, more);
  }

  lemma TellsRewrite(env: Env, content: string, log: seq<LogEntry>, events: seq<TurnEvent>, r: seq<Message>, k: nat)
    requires log != [] && LogTells(env, content, log, events, k) && GivenSummary(env, k, r)
    ensures LogTells(env, content, log + [Rewritten(r)], events, k + 1)
  {
    hide GivenSummary;
    var longer := log + [Rewritten(r)];
    assert longer[..|longer| - 1] == log;
  }

  lemma CommitClocks(env: Env, w: Run, m: Message, events: seq<TurnEvent>)
    requires w.thread.turn.Some?
    ensures w.clock < Commit(env, w, m, events).run.clock && Commit(env, w, m, events).run.thread.turn.Some?
  {
    hide Dispatches, Save;
    var staged := Stage(w, m, events);
    SaveOutcome(env, staged, staged.thread, None);
  }

  lemma CommitTelling(env: Env, content: string, w: Run, m: Message, e: TurnEvent, k: nat)
    requires Telling(env, content, w, k + 1) && Told(env, k, m, e)
    ensures Telling(env, content, Commit(env, w, m, [e]).run, k + 1)
  {
    hide Commit, LogTells, Told;
    CommitTells(env, w, m, e);
    CommitClocks(env, w, m, [e]);
    TellsSnoc(env, content, w.log, EventsOf(w.dispatched), m, e, k);
    assert EventsOf(w.dispatched + [DispatchEvent(e, w.replyToSource)]) == EventsOf(w.dispatched) + [e];
  }

  lemma CompactTelling(env: Env, content: string, w: Run, callId: Option<string>, steps: nat)
    requires Telling(env, content, w, steps)
    ensures var c := Compact(env, w, callId).run;
            && w.clock <= c.clock
            && Telling(env, content, c, c.clock)
  {
    hide Compact, LogTells, Systems, NonSystem;
    CompactFrames(env, w, callId);
    CompactEnds(env, w, callId);
    CompactSteps(env, w, callId);
    var c := Compact(env, w, callId);
    if c.result == Ok(true) {
      CompactTells(env, w, callId);
      var r := c.run.thread.messages[|Systems(w.thread.messages)|..];
      TellsLater(env, content, w.log, EventsOf(w.dispatched), steps, w.clock + 1);
      TellsRewrite(env, content, w.log, EventsOf(w.dispatched), r, w.clock + 1);
    } else {
      TellsLater(env, content, w.log, EventsOf(w.dispatched), steps, c.run.clock);
    }
  }

  /** The step whose answer decides what a call is answered with. */
  function AnswerStep(env: Env, w: Run, call: ToolCall): nat {
    if call.name == "compact" && env.compactEnabled && w.thread.messages != [] && env.hook(w.clock + 1)
       && NonSystem(w.thread.messages) != [] then w.clock + 2
    else w.clock + 1
  }

  lemma CompactCallAnswer(env: Env, w: Run, call: ToolCall)
    requires call.name == "compact"
    ensures CompactAnswer(env, AnswerStep(env, w, call), OutcomeOf(env, w, call))
  {
    hide NonSystem, Decimal, Describe;
  }

  lemma CompactCallTelling(env: Env, content: string, w: Run, call: ToolCall)
    requires Telling(env, content, w, w.clock) && call.name == "compact"
    ensures var called := ModelCompact(env, Tick(w), call);
            && w.clock <= called.run.clock
            && Telling(env, content, called.run, called.run.clock)
            && (called.result.Ok? ==> Telling(env, content, called.run, AnswerStep(env, w, call) + 1))
  {
    hide Telling, Compact, NonSystem, Describe, CompactTold;
    var v, called := Tick(w), ModelCompact(env, Tick(w), call);
    TellingOpen(env, content, w, w.clock);
    TellingFrame(env, content, w, w.clock, v, w.clock);
    if !env.compactEnabled {
      TellingFrame(env, content, v, w.clock, called.run, called.run.clock);
      TellingFrame(env, content, v, w.clock, called.run, w.clock + 2);
    } else {
      var compacted := Compact(env, v, Some(call.id));
      CompactSteps(env, v, Some(call.id));
      CompactTelling(env, content, v, Some(call.id), w.clock);
      TellingOpen(env, content, compacted.run, compacted.run.clock);
      TellingFrame(env, content, compacted.run, compacted.run.clock, called.run, called.run.clock);
      if called.result.Ok? {
        TellingFrame(env, content, compacted.run, compacted.run.clock, called.run, AnswerStep(env, w, call) + 1);
      }
    }
  }

  lemma TellingOpen(env: Env, content: string, w: Run, steps: nat)
    requires Telling(env, content, w, steps)
    ensures w.thread.turn.Some? && steps <= w.clock
  {
  }

  lemma RunToolTelling(env: Env, content: string, w: Run, call: ToolCall, j: nat)
    requires Telling(env, content, w, w.clock) && j < w.clock && Asked(env, j, call)
    ensures var r := RunTool(env, w, call).run;
            w.clock <= r.clock && Telling(env, content, r, r.clock)
  {
    hide Telling, ModelCompact, CallTool, Commit, OutcomeOf, AnswerStep, Asked, CompactAnswer, ResultTells, Told;
    TellingOpen(env, content, w, w.clock);
    if !env.hook(w.clock) {
      TellingFrame(env, content, w, w.clock, Tick(w), w.clock + 1);
    } else {
      var called := if call.name == "compact" then ModelCompact(env, Tick(w), call) else CallTool(env, Tick(w), call);
      if call.name == "compact" {
        CompactCallTells(env, w, call);
        CompactCallTelling(env, content, w, call);
        CompactCallAnswer(env, w, call);
      } else {
        ToolCallTells(env, w, call);
        ToolCallTelling(env, content, w, call);
      }
      if called.result.Ok? {
        var outcome, k := called.result.value, AnswerStep(env, w, call);
        var m, e := ToolResultMessage(call, outcome.content, outcome.isError),
                    ResultEvent(call, outcome.content, outcome.isError);
        StepLater(env, w, call);
        ResultTold(env, k, j, call, outcome);
        CommitTelling(env, content, called.run, m, e, k);
        TellingOpen(env, content, called.run, k + 1);
        CommitClocks(env, called.run, m, [e]);
        var r := Commit(env, called.run, m, [e]).run;
        TellingFrame(env, content, r, k + 1, r, r.clock);
      }
    }
  }

  lemma StepLater(env: Env, w: Run, call: ToolCall)
    ensures w.clock < AnswerStep(env, w, call)
    ensures call.name != "compact" ==>
              AnswerStep(env, w, call) == w.clock + 1
              && OutcomeOf(env, w, call) == (env.tool(w.clock + 1).content, env.tool(w.clock + 1).isError)
  {
    hide NonSystem, Decimal;
  }

  lemma ToolCallTelling(env: Env, content: string, w: Run, call: ToolCall)
    requires Telling(env, content, w, w.clock) && call.name != "compact"
    ensures var called := CallTool(env, Tick(w), call);
            && w.clock <= called.run.clock
            && Telling(env, content, called.run, called.run.clock)
            && Telling(env, content, called.run, AnswerStep(env, w, call) + 1)
  {
    hide Telling, NonSystem;
    var called := CallTool(env, Tick(w), call);
    TellingOpen(env, content, w, w.clock);
    TellingFrame(env, content, w, w.clock, called.run, called.run.clock);
    TellingFrame(env, content, w, w.clock, called.run, w.clock + 2);
  }

  lemma ResultTold(env: Env, k: nat, j: nat, call: ToolCall, outcome: ToolOutcome)
    requires j < k && Asked(env, j, call) && CameOf(env, k, call, (outcome.content, outcome.isError))
    ensures Told(env, k, ToolResultMessage(call, outcome.content, outcome.isError),
                 ResultEvent(call, outcome.content, outcome.isError))
  {
    hide Asked, CameOf, Preview;
    assert ResultTells(ToolResultMessage(call, outcome.content, outcome.isError),
                       ResultEvent(call, outcome.content, outcome.isError), call, (outcome.content, outcome.isError));
  }

  lemma {:induction false} RunToolsTelling(env: Env, content: string, w: Run, calls: seq<ToolCall>, j: nat)
    requires Telling(env, content, w, w.clock) && j < w.clock && forall c | c in calls :: Asked(env, j, c)
    ensures var r := RunTools(env, w, calls).run;
            w.clock <= r.clock && Telling(env, content, r, r.clock)
    decreases |calls|
  {
    hide Telling, RunTool, Asked;
    if calls != [] {
      RunToolTelling(env, content, w, calls[0], j);
      if RunTool(env, w, calls[0]).error.None? {
        RunToolsTelling(env, content, RunTool(env, w, calls[0]).run, calls[1..], j);
      }
    }
  }

  lemma {:induction false} CommitCallsTelling(env: Env, content: string, w: Run, calls: seq<ToolCall>, j: nat)
    requires Telling(env, content, w, j + 1) && forall c | c in calls :: Asked(env, j, c)
    ensures var r := CommitCalls(env, w, calls).run;
            w.clock <= r.clock && Telling(env, content, r, j + 1)
    decreases |calls|
  {
    hide Telling, Commit, Asked, Told, CallEvent, ToolCallMessage;
    if calls != [] {
      var m, e := ToolCallMessage(calls[0]), CallEvent(calls[0]);
      CallTold(env, j, calls[0]);
      CommitTelling(env, content, w, m, e, j);
      TellingOpen(env, content, w, j + 1);
      CommitClocks(env, w, m, [e]);
      if Commit(env, w, m, [e]).error.None? {
        CommitCallsTelling(env, content, Commit(env, w, m, [e]).run, calls[1..], j);
      }
    }
  }

  lemma CallTold(env: Env, j: nat, call: ToolCall)
    requires Asked(env, j, call)
    ensures Told(env, j, ToolCallMessage(call), CallEvent(call))
  {
    hide Asked, Preview;
    AnnouncementTells(call);
  }

  lemma BatchTelling(env: Env, content: string, w: Run, calls: seq<ToolCall>, j: nat)
    requires Telling(env, content, w, j + 1) && forall c | c in calls :: Asked(env, j, c)
    ensures var r := Batch(env, w, calls).run;
            w.clock <= r.clock && Telling(env, content, r, r.clock)
  {
    hide Telling, CommitCalls, RunTools, Asked, Torn, Gained;
    CommitCallsTelling(env, content, w, calls, j);
    var announced := CommitCalls(env, w, calls);
    TellingOpen(env, content, announced.run, j + 1);
    TellingFrame(env, content, announced.run, j + 1, announced.run, announced.run.clock);
    if announced.error.None? {
      RunToolsTelling(env, content, announced.run, calls, j);
    }
    var ran := if announced.error.Some? then announced else RunTools(env, announced.run, calls);
    TellingOpen(env, content, ran.run, ran.run.clock);
    TellingFrame(env, content, ran.run, ran.run.clock, Batch(env, w, calls).run, ran.run.clock);
  }

  lemma TextTelling(env: Env, content: string, w: Run, text: string, j: nat)
    requires Telling(env, content, w, j + 1) && !IsBlank(text)
    requires env.generate(j).ModelReply? && env.generate(j).text == Some(text)
    ensures var r := Commit(env, w, NewMessage(Assistant, text), [TextEvent(text, false)]).run;
            w.clock <= r.clock && Telling(env, content, r, j + 1)
  {
    hide Telling, Commit, IsBlank;
    CommitTelling(env, content, w, NewMessage(Assistant, text), TextEvent(text, false), j);
    TellingOpen(env, content, w, j + 1);
    CommitClocks(env, w, NewMessage(Assistant, text), [TextEvent(text, false)]);
  }

  lemma ReplyTelling(env: Env, content: string, w: Run, j: nat)
    requires Telling(env, content, w, j + 1) && env.generate(j).ModelReply?
    ensures var text, calls := env.generate(j).text, env.generate(j).calls;
            var r := if calls == [] then Answer(env, w, text).0 else UseTools(env, w, text, calls).0;
            w.clock <= r.clock && Telling(env, content, r, r.clock)
  {
    hide Telling, Commit, Batch, IsBlank, Asked;
    var text, calls := env.generate(j).text, env.generate(j).calls;
    var said := w;
    if text.Some? && !IsBlank(text.value) {
      TextTelling(env, content, w, text.value, j);
      said := Commit(env, w, NewMessage(Assistant, text.value), [TextEvent(text.value, false)]).run;
    }
    TellingOpen(env, content, said, j + 1);
    TellingFrame(env, content, said, j + 1, said, said.clock);
    assert forall c | c in calls :: Asked(env, j, c) by { AllAsked(env, j); }
    BatchTelling(env, content, said, calls, j);
  }

  lemma AllAsked(env: Env, j: nat)
    requires env.generate(j).ModelReply?
    ensures forall c | c in env.generate(j).calls :: Asked(env, j, c)
  {
  }

  lemma AskModelTelling(env: Env, content: string, w: Run)
    requires Telling(env, content, w, w.clock)
    ensures var r := AskModel(env, w).0;
            w.clock <= r.clock && Telling(env, content, r, r.clock)
  {
    hide Telling, Answer, UseTools;
    TellingOpen(env, content, w, w.clock);
    TellingFrame(env, content, w, w.clock, Tick(w), w.clock + 1);
    var asked := Tick(Tick(w).(requests := w.requests + [Sent(w.thread.messages, w.torn)]));
    TellingFrame(env, content, w, w.clock, asked, w.clock + 2);
    if env.generate(w.clock + 1).ModelReply? {
      ReplyTelling(env, content, asked, w.clock + 1);
    }
  }

  lemma ConcludeTelling(env: Env, content: string, w: Run, pass: Pass)
    requires Telling(env, content, w, w.clock)
    ensures var r := Conclude(env, w, pass).0;
            w.clock <= r.clock && Telling(env, content, r, r.clock)
  {
    hide Telling, Commit, Describe;
    if pass.PassFailed? {
      FailureTelling(env, content, w, FailureReply(Describe(pass.error)));
    }
  }

  lemma FailureTelling(env: Env, content: string, w: Run, reply: string)
    requires Telling(env, content, w, w.clock) && "[openjarvis][agent_error] " <= reply
    ensures var r := Commit(env, w, NewMessage(Assistant, reply), [TextEvent(reply, true)]).run;
            w.clock <= r.clock && Telling(env, content, r, r.clock)
  {
    hide Commit, LogTells;
    var m, e := NewMessage(Assistant, reply), TextEvent(reply, true);
    CommitTells(env, w, m, e);
    CommitClocks(env, w, m, [e]);
    TellsLater(env, content, w.log, EventsOf(w.dispatched), w.clock, w.clock + 1);
    TellsSnoc(env, content, w.log, EventsOf(w.dispatched), m, e, w.clock);
    assert EventsOf(w.dispatched + [DispatchEvent(e, w.replyToSource)]) == EventsOf(w.dispatched) + [e];
    var r := Commit(env, w, m, [e]).run;
    TellsLater(env, content, r.log, EventsOf(r.dispatched), w.clock + 1, r.clock);
  }

  lemma IterateTelling(env: Env, content: string, w: Run)
    requires Telling(env, content, w, w.clock)
    ensures var r := Iterate(env, w).0;
            w.clock <= r.clock && Telling(env, content, r, r.clock)
  {
    hide Telling, Compact, AskModel, Conclude, NonSystem;
    TellingOpen(env, content, w, w.clock);
    TellingFrame(env, content, w, w.clock, Tick(w), w.clock + 1);
    TellingFrame(env, content, w, w.clock, Tick(Tick(w)), w.clock + 2);
    CompactTelling(env, content, Tick(Tick(w)), None, w.clock + 2);
    var compacted := RuntimeCompact(env, Tick(w)).run;
    var c := Compact(env, Tick(Tick(w)), None).run;
    TellingOpen(env, content, c, c.clock);
    if env.compactEnabled && NonSystem(w.thread.messages) != [] && env.overBudget(w.clock + 1) {
      TellingFrame(env, content, c, c.clock, compacted, c.clock);
    }
    AskModelTelling(env, content, compacted);
    ConcludeTelling(env, content, AskModel(env, compacted).0, AskModel(env, compacted).1);
  }

  lemma {:induction false} LoopTelling(env: Env, content: string, w: Run, n: nat)
    requires Telling(env, content, w, w.clock)
    ensures Telling(env, content, Loop(env, w, n).0, Loop(env, w, n).0.clock)
    decreases n
  {
    hide Telling, Iterate;
    if n > 0 {
      IterateTelling(env, content, w);
      if Iterate(env, w).1.Again? {
        LoopTelling(env, content, Iterate(env, w).0, n - 1);
      }
    }
  }

  /**
   * Over any turn, finished, failed or still running, and whatever the environment does: the log and the dispatched
   * events tell the user's message and then, in order, what the environment said, and nothing else.
   */
  lemma TurnTells(env: Env, w: Run, externalMessageId: Option<string>, content: string, n: nat)
    ensures var r := RunTurn(env, Opened(w, externalMessageId), content, n).0;
            LogTells(env, content, r.log, EventsOf(r.dispatched), r.clock)
  {
    hide Commit, Loop, LogTells, FinalizeSuccess, FinalizeFailure;
    var begun := Opened(w, externalMessageId);
    var heard := Commit(env, begun, NewMessage(User, content), []).run;
    CommitOutcome(env, begun, NewMessage(User, content), []);
    CommitClocks(env, begun, NewMessage(User, content), []);
    assert heard.log == [Appended(Message(User, content, [], None))] && heard.dispatched == [];
    HeardTells(env, content, heard.clock);
    LoopTelling(env, content, heard, n);
    var looped := Loop(env, heard, n).0;
    TellsLater(env, content, looped.log, EventsOf(looped.dispatched), looped.clock, looped.clock + 1);
  }

  lemma HeardTells(env: Env, content: string, steps: nat)
    ensures LogTells(env, content, [Appended(Message(User, content, [], None))], [], steps)
  {
  }

  /** The last rewrite of a turn holds the summary that was given for it. */
  lemma {:induction false} LastSummaryIsGiven(env: Env, content: string, log: seq<LogEntry>, events: seq<TurnEvent>,
      steps: nat) returns (k: nat)
    requires LogTells(env, content, log, events, steps) && LastRewrite(log).Some?
    ensures k < steps && GivenSummary(env, k, LastRewrite(log).value)
    decreases |log|
  {
    hide GivenSummary, Told;
    var front, last := log[..|log| - 1], log[|log| - 1];
    if last.Rewritten? {
      k :| k < steps && GivenSummary(env, k, last.replacement) && LogTells(env, content, front, events, k);
    } else {
      var told: nat :| told < steps && TellsLast(env, told, last.message, events)
                       && LogTells(env, content, front, events[..|events| - 1], told + 1);
      k := LastSummaryIsGiven(env, content, front, events[..|events| - 1], told + 1);
    }
  }
}
