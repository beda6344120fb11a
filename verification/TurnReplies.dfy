/** How a turn ends: which turns succeed, with what reply, and with what error the others fail. */
module TurnReplies {
  import opened Wrappers
  import opened Text
  import opened ChatModel
  import opened ThreadAggregate
  import opened AgentLoop
  import opened AgentTurn
  import opened FailedBatches
  import opened TurnRuns

  // ---- What the model's answer makes of a pass ---------------------------------------------------

  /** The model, asked at `w`, answers without calls and with text that is not blank, and the answer is taken. */
  predicate RepliesAt(env: Env, w: Run) {
    && env.prepare(w.clock)
    && var answer := env.generate(w.clock + 1);
       && answer.ModelReply? && answer.calls == [] && answer.text.Some? && !IsBlank(answer.text.value)
       && !CommitRefused(env, Tick(Tick(w)))
  }

  /** Why a message is refused. */
  function RefusalOf(env: Env, w: Run): LoopError {
    if env.save(w.clock).StoreFails? then StoreError
    else if SaveRefused(env, w) then RevisionConflict
    else SendError
  }

  /** What is said of a pass that failed from `w`: the model's error, what its answer lacks, or what went wrong. */
  function ErrorAt(env: Env, w: Run): string
    requires AskModel(env, w).1.PassFailed?
  {
    if !env.prepare(w.clock) then Describe(PrepareError)
    else
      match env.generate(w.clock + 1)
      case ModelFails(error) => error
      case ModelReply(text, calls) =>
        if calls != [] then Describe(AskModel(env, w).1.error)
        else if text.None? then "llm response did not contain assistant text or tool calls"
        else if IsBlank(text.value) then "llm final response did not contain assistant text"
        else Describe(RefusalOf(env, Tick(Tick(w))))
  }

  lemma RefusedWith(env: Env, w: Run, m: Message, events: seq<TurnEvent>)
    requires w.thread.turn.Some?
    ensures var c := Commit(env, w, m, events);
            c.error == if CommitRefused(env, w) then Some(RefusalOf(env, w)) else None
  {
    hide Dispatches, Bound;
  }

  /** The history, and the events of the open turn and of the commit hook, end in this text. */
  predicate EndsInText(w: Run, text: string, isError: bool) {
    && w.thread.turn.Some? && w.thread.messages != [] && w.dispatched != [] && w.thread.turn.value.events != []
    && w.thread.messages[|w.thread.messages| - 1] == Message(Assistant, text, [], None)
    && w.dispatched[|w.dispatched| - 1].event == TurnEvent(TextOutput, text, None, isError)
    && w.thread.turn.value.events[|w.thread.turn.value.events| - 1] == TurnEvent(TextOutput, text, None, isError)
  }

  lemma TextEnds(env: Env, w: Run, text: string, isError: bool)
    requires w.thread.turn.Some?
    ensures EndsInText(Commit(env, w, NewMessage(Assistant, text), [TextEvent(text, isError)]).run, text, isError)
  {
    hide Commit, Dispatches;
    var m, e := NewMessage(Assistant, text), TextEvent(text, isError);
    CommitTells(env, w, m, e);
    CommitOutcome(env, w, m, [e]);
  }

  /** A pass is answered exactly when the model replies, and its answer is the model's text. */
  lemma PassEnds(env: Env, w: Run)
    requires w.thread.turn.Some?
    ensures var (r, pass) := AskModel(env, w);
            && (pass.Answered? <==> RepliesAt(env, w))
            && (pass.Answered? ==>
                  && pass.reply == env.generate(w.clock + 1).text.value
                  && EndsInText(r, pass.reply, false))
  {
    hide Commit, IsBlank, UseTools, EndsInText, CommitRefused, RefusalOf;
    if env.prepare(w.clock) && env.generate(w.clock + 1).ModelReply? {
      var asked := Tick(Tick(w).(requests := w.requests + [Sent(w.thread.messages, w.torn)]));
      var text, calls := env.generate(w.clock + 1).text, env.generate(w.clock + 1).calls;
      if calls != [] {
        ToolsAnswerNothing(env, asked, text, calls);
      } else if text.Some? && !IsBlank(text.value) {
        RefusedWith(env, asked, NewMessage(Assistant, text.value), [TextEvent(text.value, false)]);
        SameRefusal(env, asked, Tick(Tick(w)));
        TextEnds(env, asked, text.value, false);
      }
    }
  }

  lemma PassErrs(env: Env, w: Run)
    requires w.thread.turn.Some? && AskModel(env, w).1.PassFailed?
    ensures Describe(AskModel(env, w).1.error) == ErrorAt(env, w)
  {
    hide Commit, IsBlank, UseTools, CommitRefused, RefusalOf;
    if env.prepare(w.clock) && env.generate(w.clock + 1).ModelReply? {
      var asked := Tick(Tick(w).(requests := w.requests + [Sent(w.thread.messages, w.torn)]));
      var text := env.generate(w.clock + 1).text;
      if text.Some? && !IsBlank(text.value) {
        RefusedWith(env, asked, NewMessage(Assistant, text.value), [TextEvent(text.value, false)]);
        SameRefusal(env, asked, Tick(Tick(w)));
      }
    }
  }

  lemma SameRefusal(env: Env, w: Run, w': Run)
    requires w'.clock == w.clock && w'.thread == w.thread && w'.store == w.store
    ensures CommitRefused(env, w') == CommitRefused(env, w) && RefusalOf(env, w') == RefusalOf(env, w)
  {
  }

  lemma ToolsAnswerNothing(env: Env, w: Run, text: Option<string>, calls: seq<ToolCall>)
    ensures !UseTools(env, w, text, calls).1.Answered?
  {
    hide Preamble, Batch;
  }

  // ---- The pass that ends a loop -----------------------------------------------------------------

  /** The run as an iteration comes to ask the model. */
  function Asking(env: Env, w: Run): Run {
    RuntimeCompact(env, Tick(w)).run
  }

  /** The run as the last of the first `n` iterations comes to ask the model. */
  function LastAsking(env: Env, w: Run, n: nat): Run
    decreases n
  {
    if n > 1 && Iterate(env, w).1.Again? then LastAsking(env, Iterate(env, w).0, n - 1) else Asking(env, w)
  }

  /** How a loop ended by the pass that started at `a`: with its reply, or with the failure reply to its error. */
  predicate EndsAsPass(env: Env, a: Run, w: Run, reply: string, failure: Option<string>) {
    && (failure.None? <==> RepliesAt(env, a))
    && EndsInText(w, reply, failure.Some?)
    && match failure
       case None => reply == env.generate(a.clock + 1).text.value
       case Some(error) =>
         && AskModel(env, a).1.PassFailed?
         && error == ErrorAt(env, a)
         && reply == "[openjarvis][agent_error] " + error
  }

  lemma IterationEnds(o: Origin, env: Env, w: Run)
    requires TurnInvariant(o, env, w) && Sound(w)
    ensures var (r, last) := Iterate(env, w);
            last.Ends? ==> EndsAsPass(env, Asking(env, w), r, last.reply, last.failure)
  {
    hide TurnInvariant, RuntimeCompact, AskModel, Commit, Sound, SoundNext, RepliesAt, ErrorAt, EndsInText, Describe;
    FrameKeeps(o, env, w, Tick(w));
    TickSound(w);
    RuntimeCompactCarries(o, env, Tick(w));
    var a := Asking(env, w);
    OpenTurns(o, env, a);
    AskModelCarries(o, env, a);
    var (asked, pass) := AskModel(env, a);
    OpenTurns(o, env, asked);
    PassEnds(env, a);
    if pass.PassFailed? {
      PassErrs(env, a);
      TextEnds(env, asked, FailureReply(Describe(pass.error)), true);
    }
  }

  lemma {:induction false} LoopEnds(o: Origin, env: Env, w: Run, n: nat)
    requires TurnInvariant(o, env, w) && Sound(w)
    ensures var (r, last) := Loop(env, w, n);
            last.Ends? ==> EndsAsPass(env, LastAsking(env, w, n), r, last.reply, last.failure)
    decreases n
  {
    hide TurnInvariant, Iterate, Sound, EndsAsPass, Asking;
    if n > 0 {
      IterationEnds(o, env, w);
      IterateCarries(o, env, w);
      if Iterate(env, w).1.Again? {
        LoopEnds(o, env, Iterate(env, w).0, n - 1);
      }
    }
  }

  // ---- The turn it closes ------------------------------------------------------------------------

  /** The reply of a turn, the last message of its history and the text of its last event are the same. */
  predicate Says(turn: FinalizedTurn, text: string, isError: bool) {
    var h := turn.snapshot.messages;
    && turn.reply == text
    && h != [] && h[|h| - 1] == Message(Assistant, text, [], None)
    && turn.events != [] && turn.events[|turn.events| - 1] == TurnEvent(TextOutput, text, None, isError)
  }

  /** A turn that failed with `error` and says so. */
  predicate FailedWith(turn: FinalizedTurn, error: string) {
    turn.status == Failed(error) && Says(turn, "[openjarvis][agent_error] " + error, true)
  }

  /** A turn ended by the pass that started at `a`: it succeeds exactly when the model replied then. */
  predicate Concluded(env: Env, a: Run, turn: FinalizedTurn) {
    && (turn.status == Succeeded <==> RepliesAt(env, a))
    && if RepliesAt(env, a) then Says(turn, env.generate(a.clock + 1).text.value, false)
       else AskModel(env, a).1.PassFailed? && FailedWith(turn, ErrorAt(env, a))
  }

  lemma ConcludedAs(env: Env, a: Run, w: Run, turn: FinalizedTurn, reply: string, failure: Option<string>)
    requires EndsAsPass(env, a, w, reply, failure) && w.thread.turn.Some? && ClosedAs(turn, w, reply, failure)
    ensures Concluded(env, a, turn)
  {
    hide RepliesAt, ErrorAt, Describe, AskModel;
  }

  /**
   * Whatever the environment does, a turn that the loop closes succeeds exactly when its last pass ended in
   * a reply of the model that was taken, and then says that reply; otherwise it failed with that pass's error.
   */
  lemma TurnConcludes(env: Env, w: Run, externalMessageId: Option<string>, content: string, n: nat)
    requires AtRest(env, w) && Sound(w)
    ensures var begun := Opened(w, externalMessageId);
            var (r, live) := RunTurn(env, begun, content, n);
            var heard := Commit(env, begun, NewMessage(User, content), []).run;
            live.LoopOk? ==> r.thread == live.turn.snapshot && Concluded(env, LastAsking(env, heard, n), live.turn)
  {
    hide TurnInvariant, Opened, Commit, Loop, Close, Sound, SoundNext, AtRest, OriginOf, Concluded, EndsAsPass;
    hide LastAsking, ClosedAs;
    var o, begun := OriginOf(w, externalMessageId), Opened(w, externalMessageId);
    OpeningStartsInvariant(env, w, externalMessageId);
    SoundIsNext(begun);
    CommitPlain(o, env, begun, User, content, []);
    var heard := Commit(env, begun, NewMessage(User, content), []);
    if heard.error.None? {
      assert |o.emitted| <= |begun.emitted| by { InvariantParts(o, env, begun); }
      LoopCarries(o, env, heard.run, n);
      LoopEnds(o, env, heard.run, n);
      var (looped, last) := Loop(env, heard.run, n);
      if last.Ends? {
        OpenTurns(o, env, looped);
        CloseKeeps(o, env, looped, last.reply, last.failure);
        var closed := Close(env, looped, last.reply, last.failure);
        if closed.1.LoopOk? {
          ConcludedAs(env, LastAsking(env, heard.run, n), looped, closed.1.turn, last.reply, last.failure);
        }
      }
    }
  }
}
