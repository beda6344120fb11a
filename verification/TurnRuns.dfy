/** Whole turns: what holds after any number of iterations, and how a turn can end. */
module TurnRuns {
  import opened Wrappers
  import opened ChatModel
  import opened OpenAiMessages
  import opened ThreadAggregate
  import opened AgentLoop
  import opened AgentTurn
  import opened ToolPairing
  import opened FailedBatches

  predicate AllPaired(requests: seq<Sent>) {
    forall i | 0 <= i < |requests| :: Serializable(requests[i].messages) && WellPaired(WireOf(requests[i].messages))
  }

  /** Every history sent serializes, and is paired exactly when it was not torn. */
  predicate ExactlyPaired(requests: seq<Sent>) {
    forall i | 0 <= i < |requests| ::
      && Serializable(requests[i].messages)
      && (WellPaired(WireOf(requests[i].messages)) <==> !requests[i].torn)
  }

  predicate NoneTorn(requests: seq<Sent>) {
    forall i | 0 <= i < |requests| :: !requests[i].torn
  }

  /** The record of what was sent is exact, and while no batch was broken nothing is torn. */
  predicate SentExactly(w: Run) {
    ExactlyPaired(w.requests) && (w.intact ==> !w.torn && NoneTorn(w.requests))
  }

  /** The record is exact, and the next request will be paired exactly if the history is not torn. */
  ghost predicate Sound(w: Run) {
    SentExactly(w) && Standing(w.torn, w.thread.messages)
  }

  /** The same once a plain message follows, as one does after a pass that failed. */
  ghost predicate SoundNext(w: Run) {
    SentExactly(w) && forall m: Message | Plain(m) :: Standing(w.torn, w.thread.messages + [m])
  }

  lemma SoundIsNext(w: Run)
    requires Sound(w)
    ensures SoundNext(w)
  {
    hide SentExactly, Standing, Plain;
    forall m: Message | Plain(m) ensures Standing(w.torn, w.thread.messages + [m]) {
      PlainKeepsStanding(w.torn, w.thread.messages, m);
    }
  }

  /** What each part of an iteration keeps. */
  ghost predicate Carries(o: Origin, env: Env, w: Run, w': Run) {
    Keeps(o, env, w, w') && Sound(w')
  }

  /** A plain message settles the history, also one that a failed pass left unsettled. */
  lemma CommitPlain(o: Origin, env: Env, w: Run, role: Role, content: string, events: seq<TurnEvent>)
    requires TurnInvariant(o, env, w) && SoundNext(w) && NoCompact(events)
    requires role == User || role == Assistant
    ensures var c := Commit(env, w, NewMessage(role, content), events);
            && Carries(o, env, w, c.run)
            && (Reliable(env) ==> c.error.None?)
            && (c.error.None? ==> |w.emitted| < |c.run.emitted|)
            && (events != [] ==> c.run.dispatched != [])
  {
    hide TurnInvariant, Commit, Standing, ExactlyPaired, NoneTorn, Reliable;
    CommitKeeps(o, env, w, NewMessage(role, content), events);
    assert Plain(NewMessage(role, content));
  }

  lemma AnswerCarries(o: Origin, env: Env, w: Run, text: Option<string>)
    requires TurnInvariant(o, env, w) && Sound(w)
    ensures Carries(o, env, w, Answer(env, w, text).0)
    ensures Answer(env, w, text).1.Answered? ==> Answer(env, w, text).0.dispatched != []
  {
    hide TurnInvariant, Commit, Sound, SoundNext;
    SoundIsNext(w);
    if text.Some? {
      CommitPlain(o, env, w, Assistant, text.value, [TextEvent(text.value, false)]);
    }
  }

  lemma PreambleCarries(o: Origin, env: Env, w: Run, text: Option<string>)
    requires TurnInvariant(o, env, w) && Sound(w)
    ensures Carries(o, env, w, Preamble(env, w, text).run)
  {
    hide TurnInvariant, Commit, Sound, SoundNext;
    SoundIsNext(w);
    if text.Some? {
      CommitPlain(o, env, w, Assistant, text.value, [TextEvent(text.value, false)]);
    }
  }

  /** A batch that ran to its end leaves a sound run; any other one that a plain message settles. */
  lemma BatchCarries(o: Origin, env: Env, w: Run, calls: seq<ToolCall>)
    requires TurnInvariant(o, env, w) && Sound(w) && calls != []
    ensures var b := Batch(env, w, calls);
            && Keeps(o, env, w, b.run) && SoundNext(b.run)
            && (b.error.None? ==> Sound(b.run))
  {
    hide TurnInvariant, Batch, Ready, ExactlyPaired, NoneTorn, AddsBatch, Standing, Plain, Torn, LastRewrite;
    BatchKeeps(o, env, w, calls);
    var b := Batch(env, w, calls);
    var said := NewMessage(User, "");
    assert Plain(said) by { UserIsPlain(""); }
    BatchKeepsStanding(o, env, w, calls, said);
    if b.run.intact {
      StandingDecides(w.torn, w.thread.messages);
      IntactIsReady(w.torn, w.thread.messages);
      BatchKeepsReady(w.thread.messages, b.run.thread.messages, calls);
      ReadyIsPaired(b.run.thread.messages);
      StandingDecides(b.run.torn, b.run.thread.messages);
    }
    forall m: Message | Plain(m) ensures Standing(b.run.torn, b.run.thread.messages + [m]) {
      BatchKeepsStanding(o, env, w, calls, m);
    }
  }

  lemma UserIsPlain(content: string)
    ensures Plain(NewMessage(User, content))
  {
  }

  lemma IntactIsReady(torn: bool, h: seq<Message>)
    requires Standing(torn, h) && !torn
    ensures Ready(h)
  {
  }

  lemma UseToolsCarries(o: Origin, env: Env, w: Run, text: Option<string>, calls: seq<ToolCall>)
    requires TurnInvariant(o, env, w) && Sound(w) && calls != []
    ensures Keeps(o, env, w, UseTools(env, w, text, calls).0) && SoundNext(UseTools(env, w, text, calls).0)
    ensures UseTools(env, w, text, calls).1.UsedTools? ==> Sound(UseTools(env, w, text, calls).0)
    ensures !UseTools(env, w, text, calls).1.Answered?
  {
    hide TurnInvariant, Preamble, Batch, Sound, SoundNext;
    PreambleCarries(o, env, w, text);
    var said := Preamble(env, w, text);
    SoundIsNext(said.run);
    if said.error.None? {
      BatchCarries(o, env, said.run, calls);
    }
  }

  lemma AskModelCarries(o: Origin, env: Env, w: Run)
    requires TurnInvariant(o, env, w) && Sound(w)
    ensures Keeps(o, env, w, AskModel(env, w).0) && SoundNext(AskModel(env, w).0)
    ensures !AskModel(env, w).1.PassFailed? ==> Sound(AskModel(env, w).0)
    ensures AskModel(env, w).1.Answered? ==> AskModel(env, w).0.dispatched != []
  {
    hide TurnInvariant, Answer, UseTools, Sound, SoundNext;
    var asked := Tick(w).(requests := w.requests + [Sent(w.thread.messages, w.torn)]);
    FrameKeeps(o, env, w, Tick(w));
    FrameKeeps(o, env, w, asked);
    FrameKeeps(o, env, w, Tick(asked));
    AskedIsSound(w);
    assert Sound(Tick(w)) by { TickSound(w); }
    SoundIsNext(Tick(w));
    SoundIsNext(Tick(asked));
    match env.generate(asked.clock)
    case ModelFails(_) =>
    case ModelReply(text, calls) =>
      if calls == [] {
        AnswerCarries(o, env, Tick(asked), text);
        SoundIsNext(Answer(env, Tick(asked), text).0);
      } else {
        UseToolsCarries(o, env, Tick(asked), text, calls);
      }
  }

  lemma AskedIsSound(w: Run)
    requires Sound(w)
    ensures Sound(Tick(Tick(w).(requests := w.requests + [Sent(w.thread.messages, w.torn)])))
  {
    hide Standing, Serializable, WellPaired, WireOf;
    StandingDecides(w.torn, w.thread.messages);
  }

  lemma TickSound(w: Run)
    requires Sound(w)
    ensures Sound(Tick(w))
  {
    hide Standing, ExactlyPaired, NoneTorn;
    assert SentExactly(Tick(w)) by { TickExact(w); }
  }

  lemma TickExact(w: Run)
    requires SentExactly(w)
    ensures SentExactly(Tick(w))
  {
    hide ExactlyPaired, NoneTorn;
  }

  /** A compaction between batches mends the history. */
  lemma RuntimeCompactCarries(o: Origin, env: Env, w: Run)
    requires TurnInvariant(o, env, w) && Sound(w)
    ensures Carries(o, env, w, RuntimeCompact(env, w).run)
  {
    hide TurnInvariant, Compact, Standing, ExactlyPaired, NoneTorn, NonSystem;
    FrameKeeps(o, env, w, Tick(w));
    CompactKeeps(o, env, Tick(w), None);
    RewriteLeavesReady(env, Tick(w), None);
    if env.compactEnabled && NonSystem(w.thread.messages) != [] && env.overBudget(w.clock) {
      FrameKeeps(o, env, Compact(env, Tick(w), None).run, RuntimeCompact(env, w).run);
    }
  }

  lemma RewriteLeavesReady(env: Env, w: Run, callId: Option<string>)
    ensures Compact(env, w, callId).result == Ok(true) ==> Standing(false, Compact(env, w, callId).run.thread.messages)
  {
    hide Ready, CompactedMessages, CompactedNote, NonSystem, Systems, Serializable;
    if w.thread.turn.Some? {
      match env.summarize(w.clock + 1)
      case SummarizerFails(_) =>
      case Summary(text) =>
        RewrittenIsReady(w.thread.messages, text);
        ReadyIsPaired(Systems(w.thread.messages) + CompactedMessages(text));
    }
  }

  lemma ConcludeCarries(o: Origin, env: Env, w: Run, pass: Pass)
    requires TurnInvariant(o, env, w) && if pass.PassFailed? then SoundNext(w) else Sound(w)
    requires pass.Answered? ==> w.dispatched != []
    ensures Carries(o, env, w, Conclude(env, w, pass).0)
    ensures Conclude(env, w, pass).1.Ends? ==> Conclude(env, w, pass).0.dispatched != []
    ensures Reliable(env) ==> !Conclude(env, w, pass).1.Hard?
  {
    hide TurnInvariant, Commit, Sound, SoundNext, Reliable;
    if pass.PassFailed? {
      var reply := FailureReply(Describe(pass.error));
      CommitPlain(o, env, w, Assistant, reply, [TextEvent(reply, true)]);
    } else {
      FrameKeeps(o, env, w, w);
    }
  }

  lemma IterateCarries(o: Origin, env: Env, w: Run)
    requires TurnInvariant(o, env, w) && Sound(w)
    ensures Carries(o, env, w, Iterate(env, w).0)
    ensures Iterate(env, w).1.Ends? ==> Iterate(env, w).0.dispatched != []
  {
    hide TurnInvariant, RuntimeCompact, AskModel, Conclude, Standing, ExactlyPaired, NoneTorn;
    FrameKeeps(o, env, w, Tick(w));
    RuntimeCompactCarries(o, env, Tick(w));
    var compacted := RuntimeCompact(env, Tick(w));
    AskModelCarries(o, env, compacted.run);
    var asked := AskModel(env, compacted.run);
    ConcludeCarries(o, env, asked.0, asked.1);
  }

  /** After any number of iterations. */
  lemma {:induction false} LoopCarries(o: Origin, env: Env, w: Run, n: nat)
    requires TurnInvariant(o, env, w) && Sound(w)
    ensures Carries(o, env, w, Loop(env, w, n).0)
    ensures Loop(env, w, n).1.Ends? ==> Loop(env, w, n).0.dispatched != []
    decreases n
  {
    hide TurnInvariant, Iterate, Sound;
    if n == 0 {
      FrameKeeps(o, env, w, w);
    } else {
      IterateCarries(o, env, w);
      if Iterate(env, w).1.Again? {
        LoopCarries(o, env, Iterate(env, w).0, n - 1);
      }
    }
  }

  // ---- When the loop fails with its turn open ------------------------------------------------------

  /** The save of the thread as it is now fails, or meets a store that has moved on. */
  predicate SaveRefused(env: Env, w: Run) {
    match env.save(w.clock)
    case StoreFails => true
    case ForeignSave(_) => w.thread.revision != w.store.revision + 1
    case Quiet => w.thread.revision != w.store.revision
  }

  /** The message is not saved, or it is saved and its event cannot be sent. */
  predicate CommitRefused(env: Env, w: Run) {
    SaveRefused(env, w) || !env.send(w.clock + 1)
  }

  lemma SaveFails(env: Env, w: Run, snapshot: ThreadState, record: Option<(string, nat)>)
    requires snapshot.revision == w.thread.revision
    ensures Save(env, w, snapshot, record).result.Err? <==> SaveRefused(env, w)
    ensures Save(env, w, snapshot, record).run.clock == w.clock + 1
  {
    hide Bound;
  }

  lemma CommitFails(env: Env, w: Run, message: Message, events: seq<TurnEvent>)
    requires w.thread.turn.Some?
    ensures Commit(env, w, message, events).error.Some? <==> CommitRefused(env, w)
  {
    hide Save, Stage, Dispatches;
    var staged := Stage(w, message, events);
    StageFrame(w, message, events);
    SaveFails(env, staged, staged.thread, None);
  }

  lemma CommitClock(env: Env, w: Run, message: Message, events: seq<TurnEvent>)
    requires w.thread.turn.Some? && Commit(env, w, message, events).error.None?
    ensures Commit(env, w, message, events).run.clock == w.clock + 2
  {
    hide Save, Dispatches;
    var staged := Stage(w, message, events);
    SaveOutcome(env, staged, staged.thread, None);
  }

  /** What fails an iteration outright: its request cannot be prepared, or it is over budget and cannot be compacted. */
  predicate GuardFails(env: Env, w: Run) {
    || !env.prepare(w.clock)
    || (&& env.compactEnabled && NonSystem(w.thread.messages) != [] && env.overBudget(w.clock + 1)
        && (!env.hook(w.clock + 2) || env.summarize(w.clock + 3).SummarizerFails?))
  }

  /** The same, or its pass fails and the reply that says so is refused. */
  predicate IterationFails(env: Env, w: Run) {
    || GuardFails(env, w)
    || var (asked, pass) := AskModel(env, RuntimeCompact(env, Tick(w)).run);
       pass.PassFailed? && CommitRefused(env, asked)
  }

  lemma RuntimeCompactFails(env: Env, w: Run)
    requires w.thread.turn.Some?
    ensures RuntimeCompact(env, w).error.Some?
       <==> env.compactEnabled && NonSystem(w.thread.messages) != [] && env.overBudget(w.clock)
            && (!env.hook(w.clock + 1) || env.summarize(w.clock + 2).SummarizerFails?)
  {
    hide ReplaceAfterCompaction, CompactedMessages, Buffer;
  }

  /** An iteration fails outright exactly when its guard fails, or it cannot report that its pass failed. */
  lemma HardIteration(o: Origin, env: Env, w: Run)
    requires TurnInvariant(o, env, w) && Sound(w)
    ensures Iterate(env, w).1.Hard? <==> IterationFails(env, w)
    ensures Reliable(env) ==> (IterationFails(env, w) <==> GuardFails(env, w))
  {
    hide TurnInvariant, RuntimeCompact, AskModel, CommitRefused, Sound, SoundNext, Reliable, NonSystem, Commit;
    OpenTurns(o, env, w);
    FrameKeeps(o, env, w, Tick(w));
    TickSound(w);
    RuntimeCompactFails(env, Tick(w));
    RuntimeCompactCarries(o, env, Tick(w));
    var compacted := RuntimeCompact(env, Tick(w));
    AskModelCarries(o, env, compacted.run);
    var asked := AskModel(env, compacted.run);
    OpenTurns(o, env, asked.0);
    if asked.1.PassFailed? {
      var reply := FailureReply(Describe(asked.1.error));
      CommitFails(env, asked.0, NewMessage(Assistant, reply), [TextEvent(reply, true)]);
    }
    ConcludeCarries(o, env, asked.0, asked.1);
  }

  /** One of the first `n` iterations is reached and fails its guard. */
  predicate Wedged(env: Env, w: Run, n: nat)
    decreases n
  {
    n > 0 && (GuardFails(env, w) || (Iterate(env, w).1.Again? && Wedged(env, Iterate(env, w).0, n - 1)))
  }

  /** One of the first `n` iterations is reached and fails outright. */
  predicate Stuck(env: Env, w: Run, n: nat)
    decreases n
  {
    n > 0 && (IterationFails(env, w) || (Iterate(env, w).1.Again? && Stuck(env, Iterate(env, w).0, n - 1)))
  }

  /**
   * The loop fails with its turn open exactly when it reaches an iteration that fails outright; with a
   * reliable store and channel, when it reaches one whose guard fails.
   */
  lemma {:induction false} HardLoop(o: Origin, env: Env, w: Run, n: nat)
    requires TurnInvariant(o, env, w) && Sound(w)
    ensures Loop(env, w, n).1.Hard? <==> Stuck(env, w, n)
    ensures Reliable(env) ==> (Stuck(env, w, n) <==> Wedged(env, w, n))
    ensures Loop(env, w, n).0.thread.turn.Some?
    decreases n
  {
    hide TurnInvariant, Iterate, Sound, Reliable, IterationFails, GuardFails;
    OpenTurns(o, env, w);
    if n > 0 {
      HardIteration(o, env, w);
      IterateCarries(o, env, w);
      OpenTurns(o, env, Iterate(env, w).0);
      if Iterate(env, w).1.Again? {
        HardLoop(o, env, Iterate(env, w).0, n - 1);
      }
    }
  }

  // ---- Opening and closing a turn --------------------------------------------------------------

  /** A thread between turns, as the worker finds it. */
  ghost predicate AtRest(env: Env, w: Run) {
    && w.thread.turn.None?
    && (SoleWriter(env) ==> w.thread.revision == w.store.revision)
  }

  function OriginOf(w: Run, externalMessageId: Option<string>): Origin {
    Origin(w.thread.messages, w.store.revision, w.clock, externalMessageId, w.emitted, w.saves, w.conflicts,
           w.store.dedup)
  }

  lemma OpeningStartsInvariant(env: Env, w: Run, externalMessageId: Option<string>)
    requires AtRest(env, w)
    ensures TurnInvariant(OriginOf(w, externalMessageId), env, Opened(w, externalMessageId))
    ensures Sound(w) ==> Sound(Opened(w, externalMessageId))
  {
    hide SoleWriter, SendsSucceed, StoreWorks, Reliable, Standing, ExactlyPaired, NoneTorn;
    var o, begun := OriginOf(w, externalMessageId), Opened(w, externalMessageId);
    assert HistoryOf(o.messages, []) == o.messages;
    assert begun.emitted[|o.emitted|..] == [];
  }

  /**
   * A turn that the loop closed: its visible events are exactly the dispatched ones in order, the
   * first alone replies to its source, and its snapshot is the history that the log describes.
   */
  ghost predicate TurnClosed(o: Origin, env: Env, w: Run, turn: FinalizedTurn) {
    && w.thread == turn.snapshot && w.thread.turn.None?
    && turn.turnId == o.turnId && turn.externalMessageId == o.externalMessageId
    && w.dispatched != []
    && Visible(turn.events) == EventsOf(w.dispatched)
    && FirstReplies(w.dispatched)
    && FollowsLog(o, w)
    && OnlyCommits(o, w)
    && |o.emitted| < |w.emitted|
    && (SoleWriter(env) ==> InStep(o, w))
    && (SendsSucceed(env) ==> OneEventPerSave(o, w))
    && (StoreWorks(env) ==> OneSavePerAppend(o, w))
    && (Reliable(env) ==> AllPublished(o, w))
    && Sound(w)
  }

  /** A closed turn succeeded with its reply or failed with its error, and kept the history and the events it had. */
  predicate ClosedAs(turn: FinalizedTurn, w: Run, reply: string, failure: Option<string>)
    requires w.thread.turn.Some?
  {
    && turn.snapshot.messages == w.thread.messages
    && turn.events == w.thread.turn.value.events
    && match failure
       case None => turn.status == Succeeded && turn.reply == reply
       case Some(error) => turn.status == Failed(error) && turn.reply == "[openjarvis][agent_error] " + error
  }

  lemma CloseKeeps(o: Origin, env: Env, w: Run, reply: string, failure: Option<string>)
    requires TurnInvariant(o, env, w) && Sound(w) && w.dispatched != [] && |o.emitted| < |w.emitted|
    ensures var closed := Close(env, w, reply, failure);
            && closed.1 != StillRunning
            && (closed.1.LoopOk? ==>
                  TurnClosed(o, env, closed.0, closed.1.turn) && ClosedAs(closed.1.turn, w, reply, failure))
            && (closed.1.LoopErr? ==> closed.0.thread.turn.None? && OnlyCommits(o, closed.0) && Sound(closed.0))
            && (SoleWriter(env) ==> InStep(o, closed.0))
            && closed.0.emitted == w.emitted && closed.0.store == w.store
  {
    hide HistoryOf, Published, LogWithoutSystem, Standing, ExactlyPaired, NoneTorn, SoleWriter, SendsSucceed,
         Reliable, BindAll;
    var events := w.thread.turn.value.events;
    assert |Visible(events)| == |EventsOf(w.dispatched)| > 0;
    assert events != [];
  }

  /** How a turn leaves the thread when the loop fails: still open, or closed with nothing taken back. */
  ghost predicate TurnLeft(o: Origin, env: Env, w: Run) {
    && (w.thread.turn.Some? ==> TurnInvariant(o, env, w))
    && OnlyCommits(o, w)
    && (SoleWriter(env) ==> InStep(o, w))
    && Sound(w)
  }

  /** A turn from its first commit on, after any number of iterations and whatever the environment does. */
  lemma TurnOutcome(env: Env, w: Run, externalMessageId: Option<string>, content: string, n: nat)
    requires AtRest(env, w) && Sound(w)
    ensures var o := OriginOf(w, externalMessageId);
            var (ended, outcome) := RunTurn(env, Opened(w, externalMessageId), content, n);
            && (outcome.LoopOk? ==> TurnClosed(o, env, ended, outcome.turn))
            && (outcome.LoopErr? ==> TurnLeft(o, env, ended))
            && (outcome.StillRunning? ==> TurnInvariant(o, env, ended) && Sound(ended))
  {
    hide TurnInvariant, Opened, Commit, Loop, Close, Sound, SoundNext, TurnClosed, AtRest, OriginOf;
    var o, begun := OriginOf(w, externalMessageId), Opened(w, externalMessageId);
    OpeningStartsInvariant(env, w, externalMessageId);
    SoundIsNext(begun);
    CommitPlain(o, env, begun, User, content, []);
    var heard := Commit(env, begun, NewMessage(User, content), []);
    InvariantParts(o, env, heard.run);
    if heard.error.None? {
      assert |o.emitted| <= |begun.emitted| by { InvariantParts(o, env, begun); }
      LoopCarries(o, env, heard.run, n);
      var looped := Loop(env, heard.run, n);
      InvariantParts(o, env, looped.0);
      if looped.1.Ends? {
        CloseKeeps(o, env, looped.0, looped.1.reply, looped.1.failure);
      }
    }
  }

  lemma InvariantParts(o: Origin, env: Env, w: Run)
    requires TurnInvariant(o, env, w)
    ensures OnlyCommits(o, w) && (SoleWriter(env) ==> InStep(o, w)) && |o.emitted| <= |w.emitted|
  {
  }
}
