/** What single messages and events say, and what a batch of tool calls says as a whole. */
module TurnContents {
  import opened Wrappers
  import opened Text
  import opened ChatModel
  import opened ThreadAggregate
  import opened AgentLoop
  import opened AgentTurn

  // ---- What each message and event says ----------------------------------------------------------

  /** The message and the event that announce a call. */
  predicate CallTells(m: Message, e: TurnEvent, call: ToolCall) {
    && m == Message(Toolcall, "", [call], None)
    && e == TurnEvent(ToolCallEvent, "[openjarvis][tool_call] " + call.name + " " + Preview(call.arguments),
                      Some(call.id), false)
  }

  lemma AnnouncementTells(call: ToolCall)
    ensures CallTells(ToolCallMessage(call), CallEvent(call), call)
  {
    hide Preview;
  }

  /** The message and the event of an assistant text. */
  predicate TextTells(m: Message, e: TurnEvent, text: string, isError: bool) {
    m == Message(Assistant, text, [], None) && e == TurnEvent(TextOutput, text, None, isError)
  }

  /** A channel is shown a text of up to 300 characters, and of a longer one the first 300 and how many there are. */
  lemma PreviewShows(text: string) returns (digits: string)
    ensures |text| <= 300 ==> Preview(text) == text
    ensures |text| > 300 ==>
              && Preview(text) == text[..300] + "...(truncated, total_chars=" + digits + ")"
              && ReadDecimal(digits) == |text|
    ensures forall i | 0 <= i < |digits| :: '0' <= digits[i] <= '9'
  {
    digits := Decimal(|text|);
    DecimalReadsBack(|text|);
  }

  // ---- What a compaction notes in the turn -------------------------------------------------------

  /** From `w` to `w'` the open turn buffered `es`. */
  predicate Notes(w: Run, w': Run, es: seq<TurnEvent>) {
    w.thread.turn.Some? && w'.thread.turn.Some? && w'.thread.turn.value.events == w.thread.turn.value.events + es
  }

  /** A compaction notes how many messages it replaced, or that the history was empty; otherwise it notes nothing. */
  lemma CompactNotes(env: Env, w: Run, callId: Option<string>)
    requires w.thread.turn.Some?
    ensures var c, n := Compact(env, w, callId), |NonSystem(w.thread.messages)|;
            Notes(w, c.run,
                  if w.thread.messages == [] then
                    [TurnEvent(CompactEvent, "[openjarvis][compact] no chat history was available to compact", callId,
                               false)]
                  else if c.result == Ok(true) then
                    [TurnEvent(CompactEvent, "[openjarvis][compact] compacted " + Decimal(n)
                                             + " messages from current chat history", callId, false)]
                  else [])
  {
    hide NonSystem, Systems, Decimal, CompactedMessages;
    assert w.thread.turn.value.events + [] == w.thread.turn.value.events;
  }

  /** A compact call whose answer is an error notes that error, and any other what its compaction notes. */
  lemma CompactCallNotes(env: Env, w: Run, call: ToolCall)
    requires w.thread.turn.Some? && ModelCompact(env, w, call).result.Ok?
    ensures var c, compacted := ModelCompact(env, w, call), Compact(env, w, Some(call.id));
            if c.result.value.isError then
              Notes(w, c.run, [TurnEvent(CompactEvent, "[openjarvis][compact] failed: " + c.result.value.content,
                                         Some(call.id), true)])
            else Notes(compacted.run, c.run, []) && compacted.result.Ok?
  {
    hide Compact, CompactTold, Describe;
    if env.compactEnabled {
      CompactNotes(env, w, Some(call.id));
      if w.thread.messages == [] {
        EmptyCompacts(env, w, Some(call.id));
      }
      var turn := Compact(env, w, Some(call.id)).run.thread.turn;
      assert turn.value.events + [] == turn.value.events;
      assert w.thread.turn.value.events + [] == w.thread.turn.value.events;
    }
  }

  lemma EmptyCompacts(env: Env, w: Run, callId: Option<string>)
    requires w.thread.turn.Some? && w.thread.messages == []
    ensures Compact(env, w, callId).result == Ok(false)
  {
  }

  // ---- What a batch that ran to its end says -----------------------------------------------------

  /** The messages that a log appends, in order. */
  function AppendedBy(log: seq<LogEntry>): seq<Message> {
    if log == [] then []
    else
      var last := log[|log| - 1];
      AppendedBy(log[..|log| - 1]) + (if last.Appended? then [last.message] else [])
  }

  lemma {:induction false} AppendedByAppend(a: seq<LogEntry>, b: seq<LogEntry>)
    ensures AppendedBy(a + b) == AppendedBy(a) + AppendedBy(b)
    decreases |b|
  {
    if b == [] {
      assert a + b == a;
    } else {
      assert (a + b)[..|a + b| - 1] == a + b[..|b| - 1];
      AppendedByAppend(a, b[..|b| - 1]);
    }
  }

  /** From `w` to `w'` the messages `ms` were appended and the events `es` handed to the commit hook. */
  predicate Adds(w: Run, w': Run, ms: seq<Message>, es: seq<TurnEvent>) {
    && w.log <= w'.log && AppendedBy(w'.log[|w.log|..]) == ms
    && w.dispatched <= w'.dispatched && EventsOf(w'.dispatched[|w.dispatched|..]) == es
  }

  lemma AddsThen(a: Run, b: Run, c: Run, ms: seq<Message>, ms': seq<Message>, es: seq<TurnEvent>, es': seq<TurnEvent>)
    requires Adds(a, b, ms, es) && Adds(b, c, ms', es')
    ensures Adds(a, c, ms + ms', es + es')
  {
    hide AppendedBy;
    assert c.log[|a.log|..] == b.log[|a.log|..] + c.log[|b.log|..];
    AppendedByAppend(b.log[|a.log|..], c.log[|b.log|..]);
    assert c.dispatched[|a.dispatched|..] == b.dispatched[|a.dispatched|..] + c.dispatched[|b.dispatched|..];
  }

  lemma AddsNothing(w: Run, w': Run)
    requires w'.dispatched == w.dispatched
    requires w'.log == w.log || (|w'.log| == |w.log| + 1 && w.log <= w'.log && w'.log[|w.log|].Rewritten?)
    ensures Adds(w, w', [], [])
  {
    assert w'.dispatched[|w.dispatched|..] == [];
    var added := w'.log[|w.log|..];
    assert added == [] || (added[..|added| - 1] == [] && added[|added| - 1].Rewritten?);
  }

  lemma CommitAdds(env: Env, w: Run, m: Message, e: TurnEvent)
    requires w.thread.turn.Some?
    ensures Adds(w, Commit(env, w, m, [e]).run, [m], [e])
    ensures Commit(env, w, m, [e]).run.thread.turn.Some?
  {
    hide Commit;
    CommitTells(env, w, m, e);
    CommitOutcome(env, w, m, [e]);
    var c := Commit(env, w, m, [e]).run;
    var added := c.log[|w.log|..];
    assert added == [Appended(m)] && added[..0] == [];
    assert AppendedBy(added) == AppendedBy([]) + [m] == [m];
    assert c.dispatched[|w.dispatched|..] == [DispatchEvent(e, w.replyToSource)];
  }

  lemma CompactFrames(env: Env, w: Run, callId: Option<string>)
    requires w.thread.turn.Some?
    ensures var c := Compact(env, w, callId);
            && c.run.dispatched == w.dispatched
            && (c.result != Ok(true) ==> c.run.log == w.log)
  {
    hide NonSystem, ReplaceAfterCompaction, CompactedMessages, CompactedNote, Buffer;
  }

  /** Until its result is committed, a call adds a rewrite at most. */
  lemma CompactAdds(env: Env, w: Run, callId: Option<string>)
    requires w.thread.turn.Some?
    ensures Adds(w, Compact(env, w, callId).run, [], [])
  {
    hide Compact, Adds, Summarized;
    CompactFrames(env, w, callId);
    if Compact(env, w, callId).result == Ok(true) {
      CompactTells(env, w, callId);
    }
    AddsNothing(w, Compact(env, w, callId).run);
  }

  lemma CompactCallAdds(env: Env, w: Run, call: ToolCall)
    requires w.thread.turn.Some?
    ensures Adds(w, ModelCompact(env, w, call).run, [], [])
  {
    hide NonSystem, Compact, Adds, CompactTold, Describe, FailedNote;
    if !env.compactEnabled {
      AddsNothing(w, ModelCompact(env, w, call).run);
    } else {
      CompactAdds(env, w, Some(call.id));
      AddsNothing(Compact(env, w, Some(call.id)).run, ModelCompact(env, w, call).run);
      AddsThen(w, Compact(env, w, Some(call.id)).run, ModelCompact(env, w, call).run, [], [], [], []);
      var m: seq<Message>, e: seq<TurnEvent> := [], [];
      assert m + m == m && e + e == e;
    }
  }

  lemma RunToolAdds(env: Env, w: Run, call: ToolCall) returns (m: Message, e: TurnEvent)
    requires w.thread.turn.Some? && RunTool(env, w, call).error.None?
    ensures RunTool(env, w, call).run.thread.turn.Some?
    ensures Adds(w, RunTool(env, w, call).run, [m], [e]) && ResultTells(m, e, call, OutcomeOf(env, w, call))
  {
    hide ModelCompact, CallTool, Commit, OutcomeOf, Preview, Adds;
    var ticked := Tick(w);
    var called := if call.name == "compact" then ModelCompact(env, ticked, call) else CallTool(env, ticked, call);
    AddsNothing(w, ticked);
    if call.name == "compact" {
      CompactCallTells(env, w, call);
      CompactCallAdds(env, ticked, call);
    } else {
      ToolCallTells(env, w, call);
      ToolCallAdds(env, ticked, call);
    }
    var outcome := called.result.value;
    m := ToolResultMessage(call, outcome.content, outcome.isError);
    e := ResultEvent(call, outcome.content, outcome.isError);
    CommitAdds(env, called.run, m, e);
    AddsThen(w, ticked, called.run, [], [], [], []);
    AddsThen(w, called.run, RunTool(env, w, call).run, [] + [], [m], [] + [], [e]);
    assert [] + [] + [m] == [m] && [] + [] + [e] == [e];
  }

  lemma ToolCallAdds(env: Env, w: Run, call: ToolCall)
    ensures Adds(w, CallTool(env, w, call).run, [], [])
  {
    hide Adds;
    AddsNothing(w, CallTool(env, w, call).run);
  }

  /** Each result tells what came of its call, made from where the one before it left the run. */
  predicate ResultsTell(env: Env, w: Run, calls: seq<ToolCall>, ms: seq<Message>, es: seq<TurnEvent>)
    decreases |calls|
  {
    && |ms| == |es| == |calls|
    && (calls != [] ==>
          && ResultTells(ms[0], es[0], calls[0], OutcomeOf(env, w, calls[0]))
          && ResultsTell(env, RunTool(env, w, calls[0]).run, calls[1..], ms[1..], es[1..]))
  }

  lemma {:induction false} RunToolsAdd(env: Env, w: Run, calls: seq<ToolCall>)
      returns (ms: seq<Message>, es: seq<TurnEvent>)
    requires w.thread.turn.Some? && RunTools(env, w, calls).error.None?
    ensures Adds(w, RunTools(env, w, calls).run, ms, es) && ResultsTell(env, w, calls, ms, es)
    decreases |calls|
  {
    hide RunTool, OutcomeOf, Adds, ResultTells;
    if calls == [] {
      ms, es := [], [];
      AddsNothing(w, w);
    } else {
      var m, e := RunToolAdds(env, w, calls[0]);
      var more, moreEvents := RunToolsAdd(env, RunTool(env, w, calls[0]).run, calls[1..]);
      ms, es := [m] + more, [e] + moreEvents;
      AddsThen(w, RunTool(env, w, calls[0]).run, RunTools(env, w, calls).run, [m], more, [e], moreEvents);
      assert ms[1..] == more && es[1..] == moreEvents;
    }
  }

  predicate CallsTell(calls: seq<ToolCall>, ms: seq<Message>, es: seq<TurnEvent>) {
    |ms| == |es| == |calls| && forall i | 0 <= i < |calls| :: CallTells(ms[i], es[i], calls[i])
  }

  lemma {:induction false} CommitCallsAdd(env: Env, w: Run, calls: seq<ToolCall>)
      returns (ms: seq<Message>, es: seq<TurnEvent>)
    requires w.thread.turn.Some? && CommitCalls(env, w, calls).error.None?
    ensures CommitCalls(env, w, calls).run.thread.turn.Some?
    ensures Adds(w, CommitCalls(env, w, calls).run, ms, es) && CallsTell(calls, ms, es)
    decreases |calls|
  {
    hide Commit, CallTells, ToolCallMessage, CallEvent, Adds;
    if calls == [] {
      ms, es := [], [];
      AddsNothing(w, w);
    } else {
      var m, e := ToolCallMessage(calls[0]), CallEvent(calls[0]);
      AnnouncementTells(calls[0]);
      CommitAdds(env, w, m, e);
      var more, moreEvents := CommitCallsAdd(env, Commit(env, w, m, [e]).run, calls[1..]);
      ms, es := [m] + more, [e] + moreEvents;
      AddsThen(w, Commit(env, w, m, [e]).run, CommitCalls(env, w, calls).run, [m], more, [e], moreEvents);
    }
  }

  /**
   * A batch that ran to its end, with or without a compaction in it, appended the announcement of each call and
   * then the result of each, and every result tells what came of its call.
   */
  lemma BatchTells(env: Env, w: Run, calls: seq<ToolCall>)
      returns (said: seq<Message>, saidEvents: seq<TurnEvent>, results: seq<Message>, resultEvents: seq<TurnEvent>)
    requires w.thread.turn.Some? && Batch(env, w, calls).error.None?
    ensures Adds(w, Batch(env, w, calls).run, said + results, saidEvents + resultEvents)
    ensures CallsTell(calls, said, saidEvents)
    ensures ResultsTell(env, CommitCalls(env, w, calls).run, calls, results, resultEvents)
  {
    hide CommitCalls, RunTools, Adds, CallsTell, ResultsTell, Torn, Gained;
    said, saidEvents := CommitCallsAdd(env, w, calls);
    var announced := CommitCalls(env, w, calls).run;
    results, resultEvents := RunToolsAdd(env, announced, calls);
    var ran := RunTools(env, announced, calls).run;
    AddsThen(w, announced, ran, said, results, saidEvents, resultEvents);
    AddsNothing(ran, Batch(env, w, calls).run);
    AddsThen(w, ran, Batch(env, w, calls).run, said + results, [], saidEvents + resultEvents, []);
    assert said + results + [] == said + results && saidEvents + resultEvents + [] == saidEvents + resultEvents;
  }

  // ---- What a pass that used tools says ----------------------------------------------------------

  /** The model's text before its calls, if there is any. */
  function Spoken(text: Option<string>): (seq<Message>, seq<TurnEvent>) {
    if text.None? || IsBlank(text.value) then ([], [])
    else ([Message(Assistant, text.value, [], None)], [TurnEvent(TextOutput, text.value, None, false)])
  }

  lemma PreambleAdds(env: Env, w: Run, text: Option<string>)
    requires w.thread.turn.Some? && Preamble(env, w, text).error.None?
    ensures Preamble(env, w, text).run.thread.turn.Some?
    ensures Adds(w, Preamble(env, w, text).run, Spoken(text).0, Spoken(text).1)
  {
    hide Commit, Adds, IsBlank;
    if text.Some? && !IsBlank(text.value) {
      CommitAdds(env, w, NewMessage(Assistant, text.value), TextEvent(text.value, false));
    } else {
      AddsNothing(w, w);
    }
  }

  /** The run in which the calls of the model's answer have been announced, if `w` asked for it. */
  function AnnouncedBy(env: Env, w: Run): Run
    requires env.generate(w.clock + 1).ModelReply?
  {
    var asked := Tick(Tick(w)).(requests := w.requests + [Sent(w.thread.messages, w.torn)]);
    CommitCalls(env, Preamble(env, asked, env.generate(w.clock + 1).text).run, env.generate(w.clock + 1).calls).run
  }

  /**
   * A pass that used tools and goes on says all of the model's answer and nothing else: its text, if it has any, then
   * an announcement of each of its calls, then what came of each.
   */
  lemma ToolPassTells(env: Env, w: Run)
      returns (said: seq<Message>, saidEvents: seq<TurnEvent>, results: seq<Message>, resultEvents: seq<TurnEvent>)
    requires w.thread.turn.Some? && AskModel(env, w).1.UsedTools?
    ensures env.generate(w.clock + 1).ModelReply? && env.generate(w.clock + 1).calls != []
    ensures var answer := env.generate(w.clock + 1);
            && Adds(w, AskModel(env, w).0, Spoken(answer.text).0 + said + results,
                    Spoken(answer.text).1 + saidEvents + resultEvents)
            && CallsTell(answer.calls, said, saidEvents)
            && ResultsTell(env, AnnouncedBy(env, w), answer.calls, results, resultEvents)
  {
    hide Preamble, Batch, CommitCalls, Adds, CallsTell, ResultsTell, Spoken, Answer;
    assert env.generate(w.clock + 1).ModelReply? && env.generate(w.clock + 1).calls != [] by {
      AnswersUseNoTools(env, w);
    }
    var asked := Tick(Tick(w)).(requests := w.requests + [Sent(w.thread.messages, w.torn)]);
    var text, calls := env.generate(w.clock + 1).text, env.generate(w.clock + 1).calls;
    AddsNothing(w, asked);
    PreambleAdds(env, asked, text);
    var spoke := Preamble(env, asked, text).run;
    said, saidEvents, results, resultEvents := BatchTells(env, spoke, calls);
    AddsThen(w, asked, spoke, [], Spoken(text).0, [], Spoken(text).1);
    AddsThen(w, spoke, AskModel(env, w).0, [] + Spoken(text).0, said + results, [] + Spoken(text).1,
             saidEvents + resultEvents);
    assert [] + Spoken(text).0 + (said + results) == Spoken(text).0 + said + results;
    assert [] + Spoken(text).1 + (saidEvents + resultEvents) == Spoken(text).1 + saidEvents + resultEvents;
  }

  lemma AnswersUseNoTools(env: Env, w: Run)
    requires AskModel(env, w).1.UsedTools?
    ensures env.generate(w.clock + 1).ModelReply? && env.generate(w.clock + 1).calls != []
  {
    hide Commit, UseTools, IsBlank;
  }
}
