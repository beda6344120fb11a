/** What a request promises when it completes, what is lost when it does not, and many requests in a row. */
module WorkerRuns {
  import opened Wrappers
  import opened ChatModel
  import opened OpenAiMessages
  import opened ThreadAggregate
  import opened AgentLoop
  import opened AgentTurn
  import opened ToolPairing
  import opened TurnRuns
  import opened TurnReplies
  import opened TurnTranscripts
  import opened AgentWorker

  // ---- A request that the loop finished --------------------------------------------------------

  /** The messages committed by a completed request: every event it emitted but the two closing ones. */
  function CommittedBy(w: Run, r: Run): int {
    |r.emitted| - |w.emitted| - 2
  }

  /** What is left of a closed turn once it is published. */
  lemma PublishFrame(env: Env, w: Run, turn: FinalizedTurn)
    ensures var p := Publish(env, w, turn);
            && p.run.dispatched == w.dispatched && p.run.log == w.log && p.run.intact == w.intact
            && p.run.torn == w.torn && p.run.requests == w.requests && w.clock <= p.run.clock
  {
    hide Save, Bound;
    SaveOutcome(env, w, turn.snapshot, RecordOf(turn));
  }

  /** The live part of a request whose loop returned a turn, and the state it was published from. */
  lemma Finished(env: Env, w: Run, request: Request, n: nat)
    returns (o: Origin, r: Run, turn: FinalizedTurn)
    requires Between(env, w) && w.thread.turn.None?
    requires HandleRequest(env, w, request, n).1 == Completed(None)
    ensures TurnClosed(o, env, r, turn) && Between(env, r) && r.store.dedup == w.store.dedup
    ensures var i := Initialize(env, w);
            && i.result.Ok?
            && o == LiveOrigin(i.run, request.externalMessageId)
            && o.saves == w.saves + (if i.result.value then 1 else 0)
            && o.emitted == w.emitted && o.messages == i.run.thread.messages
    ensures Publish(env, r, turn) == Step(HandleRequest(env, w, request, n).0, None)
    ensures Concluded(env, LastAsking(env, Heard(env, Initialize(env, w).run, request), n), turn)
    ensures LogTells(env, request.content, r.log, EventsOf(r.dispatched), r.clock)
  {
    hide Concluded, LastAsking, Heard, LogTells;
    hide Initialize, RunLive, Publish, Fallback, TurnClosed, Between;
    hide SoleWriter, Reliable, CompletedTrace, OnlyCommits, OriginOf;
    InitializeRests(env, w);
    var i := Initialize(env, w).run;
    LiveKeeps(env, i, request.externalMessageId, request.content, n);
    o := LiveOrigin(i, request.externalMessageId);
    OriginParts(Tick(Tick(i)), request.externalMessageId);
    var live := RunLive(env, i, request.externalMessageId, request.content, n);
    r := live.0;
    CommitsSoFar(o, r);
    if live.1.LoopErr? {
      FallbackFails(env, r, request, live.1.error);
    }
    turn := live.1.turn;
    LiveTells(env, i, request, n);
  }

  /**
   * A turn that the live loop closes succeeds exactly when its last pass ended in a reply of the model that was
   * taken, and its log and events tell what was said.
   */
  lemma LiveTells(env: Env, w: Run, request: Request, n: nat)
    requires Between(env, w) && w.thread.turn.None?
    ensures var (r, live) := RunLive(env, w, request.externalMessageId, request.content, n);
            live.LoopOk? ==>
              && r.thread == live.turn.snapshot
              && Concluded(env, LastAsking(env, Heard(env, w, request), n), live.turn)
              && LogTells(env, request.content, r.log, EventsOf(r.dispatched), r.clock)
  {
    hide Opened, RunTurn, Commit, LastAsking, Concluded, LogTells, Sound, SoleWriter;
    if env.prepare(w.clock) && env.hook(w.clock + 1) {
      var ready := Tick(Tick(w));
      assert AtRest(env, ready) by { RestsOf(env, ready, w); }
      assert Sound(ready) by { SoundFrame(w, ready); }
      TurnConcludes(env, ready, request.externalMessageId, request.content, n);
      TurnTells(env, ready, request.externalMessageId, request.content, n);
    }
  }

  lemma FallbackFails(env: Env, w: Run, request: Request, error: LoopError)
    ensures Fallback(env, w, request, error).1 != Completed(None)
  {
    hide Opened, Commit, Publish;
  }

  /**
   * Over a working store a completed request never conflicts, and moves the store by exactly one
   * revision for the initialization if there was one, one for each message it appended and one for
   * the turn, whatever becomes of its events: a compaction adds none.
   */
  lemma ExactRevision(env: Env, w: Run, request: Request, n: nat)
    requires Between(env, w) && w.thread.turn.None? && StoreWorks(env)
    ensures var (r, outcome) := HandleRequest(env, w, request, n);
            outcome == Completed(None) ==>
              && Initialize(env, w).result.Ok?
              && r.conflicts == w.conflicts
              && r.store.revision == w.store.revision
                                     + (if Initialize(env, w).result.value then 1 else 0) + Appends(r.log) + 1
              && r.thread.revision == r.store.revision
  {
    hide HandleRequest, Initialize, Publish, SoleWriter, StoreWorks, SendsSucceed, Reliable, CompletedTrace;
    hide Between, OnlyCommits, FollowsLog, FirstReplies, Sound, LiveOrigin, Appends;
    ReliableIsSole(env);
    if HandleRequest(env, w, request, n).1 == Completed(None) {
      var o, r, turn := Finished(env, w, request, n);
      PublishOutcome(env, r, turn);
      PublishFrame(env, r, turn);
      RequestKeeps(env, w, request, n);
      assert HandleRequest(env, w, request, n).0.saves == r.saves + 1;
    }
  }

  /**
   * While no send fails, the same holds of the committed messages it published, even over a store that
   * fails now and then.
   */
  lemma RevisionCountsEvents(env: Env, w: Run, request: Request, n: nat)
    requires Between(env, w) && w.thread.turn.None? && SoleWriter(env) && SendsSucceed(env)
    ensures var (r, outcome) := HandleRequest(env, w, request, n);
            outcome == Completed(None) ==>
              && Initialize(env, w).result.Ok?
              && r.conflicts == w.conflicts
              && r.store.revision == w.store.revision
                                     + (if Initialize(env, w).result.value then 1 else 0) + CommittedBy(w, r) + 1
              && r.thread.revision == r.store.revision
  {
    hide HandleRequest, Initialize, Publish, SoleWriter, StoreWorks, SendsSucceed, Reliable, CompletedTrace;
    hide Between, OnlyCommits, FollowsLog, FirstReplies, Sound, LiveOrigin;
    if HandleRequest(env, w, request, n).1 == Completed(None) {
      var o, r, turn := Finished(env, w, request, n);
      PublishOutcome(env, r, turn);
      RequestKeeps(env, w, request, n);
      assert HandleRequest(env, w, request, n).0.saves == r.saves + 1;
    }
  }

  /**
   * The turn that a completed request finalizes: its visible events are exactly what was
   * dispatched, in order, only the first replies to the source, and its history is the one its log describes.
   */
  ghost predicate TurnMatches(env: Env, w: Run, r: Run, turn: FinalizedTurn) {
    && r.dispatched != []
    && Visible(turn.events) == EventsOf(r.dispatched)
    && FirstReplies(r.dispatched)
    && LogWithoutSystem(r.log)
    && turn.snapshot.messages == HistoryOf(Initialize(env, w).run.thread.messages, r.log)
    && (Reliable(env) ==>
          |w.emitted| + 2 <= |r.emitted| && Published(r.emitted[|w.emitted|..|r.emitted| - 2]) == r.dispatched)
  }

  /**
   * A completed request finalized the turn that its dispatched events show. The turn succeeded exactly when its last
   * pass ended in a reply of the model that was taken, and says that reply; otherwise it failed with that pass's
   * error and says so. Its log and events tell what was said.
   */
  lemma CompletedTurn(env: Env, w: Run, request: Request, n: nat)
    requires Between(env, w) && w.thread.turn.None?
    ensures var (r, outcome) := HandleRequest(env, w, request, n);
            outcome == Completed(None) ==>
              && |r.emitted| >= 2
              && r.emitted[|r.emitted| - 2].event.TurnFinalized?
              && var turn := r.emitted[|r.emitted| - 2].event.turn;
                 && TurnMatches(env, w, r, turn)
                 && Concluded(env, LastAsking(env, Heard(env, Initialize(env, w).run, request), n), turn)
                 && LogTells(env, request.content, r.log, EventsOf(r.dispatched), r.clock)
  {
    hide Concluded, LastAsking, Heard, LogTells;
    hide HandleRequest, Initialize, Publish, Visible, EventsOf, FirstReplies, LogWithoutSystem, HistoryOf;
    hide Published, SoleWriter, SendsSucceed, Reliable, Between, Sound, LiveOrigin;
    if HandleRequest(env, w, request, n).1 == Completed(None) {
      var o, live, turn := Finished(env, w, request, n);
      PublishOutcome(env, live, turn);
      PublishFrame(env, live, turn);
      var r := HandleRequest(env, w, request, n).0;
      TellsLater(env, request.content, live.log, EventsOf(live.dispatched), live.clock, r.clock);
      assert r.emitted[|r.emitted| - 2].event == TurnFinalized(turn);
      assert r.emitted[|w.emitted|..|r.emitted| - 2] == live.emitted[|w.emitted|..];
    }
  }

  // ---- A request that left its turn open -------------------------------------------------------

  /** While a turn is left open, no request of the thread can complete, and none changes its history. */
  lemma OpenTurnDrops(env: Env, w: Run, request: Request, n: nat)
    requires w.thread.turn.Some? && w.thread.messages != []
    ensures var (r, outcome) := HandleRequest(env, w, request, n);
            && outcome.Dropped?
            && r.thread == w.thread && r.emitted == w.emitted && r.requests == w.requests && r.store == w.store
            && r.intact == w.intact && r.saves == w.saves && r.conflicts == w.conflicts
  {
    hide RunTurn, Opened;
  }

  /** The state in which the loop of a request first asks what to do: turn open, user message committed. */
  function Heard(env: Env, w: Run, request: Request): Run {
    Commit(env, Opened(Tick(Tick(w)), request.externalMessageId), NewMessage(User, request.content), []).run
  }

  /** The loop will fail with its turn open: its user message is refused, or it reaches an iteration that fails. */
  predicate LeavesOpen(env: Env, w: Run, request: Request, n: nat) {
    && env.prepare(w.clock) && env.hook(w.clock + 1)
    && (CommitRefused(env, Tick(Tick(w))) || Stuck(env, Heard(env, w, request), n))
  }

  /**
   * The live loop leaves its turn open exactly when its user message is refused, or it reaches an
   * iteration that fails outright; with a reliable store and channel, one whose guard fails.
   */
  lemma LiveLeavesOpen(env: Env, w: Run, request: Request, n: nat)
    requires Between(env, w) && w.thread.turn.None?
    ensures var (r, live) := RunLive(env, w, request.externalMessageId, request.content, n);
            (live.LoopErr? && r.thread.turn.Some? <==> LeavesOpen(env, w, request, n))
    ensures Reliable(env) ==>
              (LeavesOpen(env, w, request, n)
               <==> env.prepare(w.clock) && env.hook(w.clock + 1) && Wedged(env, Heard(env, w, request), n))
  {
    hide OriginOf, Commit, Loop, TurnInvariant, Sound, SoundNext, Iterate, IterationFails, GuardFails;
    hide Wedged, Stuck, Reliable, SoleWriter, FinalizeSuccess, FinalizeFailure;
    if env.prepare(w.clock) && env.hook(w.clock + 1) {
      var ready := Tick(Tick(w));
      assert AtRest(env, ready) by { RestsOf(env, ready, w); }
      assert Sound(ready) by { SoundFrame(w, ready); }
      var o, begun := OriginOf(ready, request.externalMessageId), Opened(ready, request.externalMessageId);
      OpeningStartsInvariant(env, ready, request.externalMessageId);
      SoundIsNext(begun);
      CommitPlain(o, env, begun, User, request.content, []);
      CommitFails(env, begun, NewMessage(User, request.content), []);
      assert CommitRefused(env, begun) == CommitRefused(env, ready);
      OpenTurns(o, env, Heard(env, w, request));
      HardLoop(o, env, Heard(env, w, request), n);
      var looped := Loop(env, Heard(env, w, request), n);
      CloseCloses(env, looped.0, looped.1);
    }
  }

  lemma CloseCloses(env: Env, w: Run, last: Iteration)
    requires w.thread.turn.Some?
    ensures last.Ends? ==> Close(env, w, last.reply, last.failure).0.thread.turn.None?
  {
  }

  // ---- Exactly when a request is dropped -------------------------------------------------------

  /** The thread is new, and its prompts cannot be built or the save of them is refused. */
  predicate SetupFails(env: Env, w: Run) {
    && w.thread.messages == []
    && match env.prompts(w.clock)
       case PromptsFail => true
       case Prompts(contents) => contents != [] && SaveRefused(env, Tick(w))
  }

  lemma InitializeFails(env: Env, w: Run)
    ensures Initialize(env, w).result.Err? <==> SetupFails(env, w)
  {
    hide Save, SystemMessages;
    if w.thread.messages == [] && env.prompts(w.clock).Prompts? {
      var filled := Tick(w).(thread := w.thread.(messages := SystemMessages(env.prompts(w.clock).contents)));
      SaveFails(env, filled, filled.thread, None);
    }
  }

  /** The save of a closed turn does not go through at once, or one of the two closing events cannot be sent. */
  predicate ClosingRefused(env: Env, clock: nat) {
    env.save(clock) != Quiet || !env.send(clock + 1) || !env.send(clock + 2)
  }

  lemma PublishFails(env: Env, w: Run, turn: FinalizedTurn)
    requires turn.snapshot.revision == w.thread.revision == w.store.revision
    ensures Publish(env, w, turn).error.Some? <==> ClosingRefused(env, w.clock)
  {
    hide Save;
    SaveFails(env, w, turn.snapshot, RecordOf(turn));
  }

  /** A loop ends with a commit that went through, so the thread is in step with the store then. */
  lemma IterationEndsInStep(o: Origin, env: Env, w: Run)
    requires TurnInvariant(o, env, w) && Sound(w)
    ensures var (r, last) := Iterate(env, w);
            last.Ends? ==> r.thread.turn.Some? && r.thread.revision == r.store.revision
  {
    hide TurnInvariant, RuntimeCompact, AskModel, Commit, Sound, SoundNext, UseTools, Describe;
    FrameKeeps(o, env, w, Tick(w));
    TickSound(w);
    RuntimeCompactCarries(o, env, Tick(w));
    var compacted := RuntimeCompact(env, Tick(w)).run;
    AskModelCarries(o, env, compacted);
    var (asked, pass) := AskModel(env, compacted);
    OpenTurns(o, env, asked);
    OpenTurns(o, env, compacted);
    if pass.PassFailed? {
      var reply := FailureReply(Describe(pass.error));
      CommitOutcome(env, asked, NewMessage(Assistant, reply), [TextEvent(reply, true)]);
    } else if pass.Answered? {
      AnswerInStep(env, compacted);
    }
  }

  lemma AnswerInStep(env: Env, w: Run)
    requires w.thread.turn.Some? && AskModel(env, w).1.Answered?
    ensures AskModel(env, w).0.thread.revision == AskModel(env, w).0.store.revision
  {
    hide Commit, Batch, Preamble;
    var asked := Tick(Tick(w).(requests := w.requests + [Sent(w.thread.messages, w.torn)]));
    var text := env.generate(w.clock + 1).text.value;
    CommitOutcome(env, asked, NewMessage(Assistant, text), [TextEvent(text, false)]);
  }

  lemma {:induction false} LoopEndsInStep(o: Origin, env: Env, w: Run, n: nat)
    requires TurnInvariant(o, env, w) && Sound(w)
    ensures var (r, last) := Loop(env, w, n);
            last.Ends? ==> r.thread.turn.Some? && r.thread.revision == r.store.revision
    decreases n
  {
    hide TurnInvariant, Iterate, Sound;
    if n > 0 {
      IterationEndsInStep(o, env, w);
      IterateCarries(o, env, w);
      if Iterate(env, w).1.Again? {
        LoopEndsInStep(o, env, Iterate(env, w).0, n - 1);
      }
    }
  }

  lemma CloseInStep(env: Env, w: Run, reply: string, failure: Option<string>)
    requires w.thread.turn.Some? && w.thread.revision == w.store.revision
    ensures var (r, live) := Close(env, w, reply, failure);
            live.LoopOk? ==> live.turn.snapshot.revision == r.thread.revision == r.store.revision
  {
    hide BindAll;
  }

  lemma LiveEndsInStep(env: Env, w: Run, request: Request, n: nat)
    requires Between(env, w) && w.thread.turn.None?
    ensures var (r, live) := RunLive(env, w, request.externalMessageId, request.content, n);
            live.LoopOk? ==> live.turn.snapshot.revision == r.thread.revision == r.store.revision
  {
    hide Opened, OriginOf, Commit, Loop, Close, TurnInvariant, Sound, SoundNext, SoleWriter;
    if env.prepare(w.clock) && env.hook(w.clock + 1) {
      var ready := Tick(Tick(w));
      assert AtRest(env, ready) by { RestsOf(env, ready, w); }
      assert Sound(ready) by { SoundFrame(w, ready); }
      var o, begun := OriginOf(ready, request.externalMessageId), Opened(ready, request.externalMessageId);
      OpeningStartsInvariant(env, ready, request.externalMessageId);
      SoundIsNext(begun);
      CommitPlain(o, env, begun, User, request.content, []);
      var heard := Heard(env, w, request);
      LoopEndsInStep(o, env, heard, n);
      var (looped, last) := Loop(env, heard, n);
      if last.Ends? {
        CloseInStep(env, looped, last.reply, last.failure);
      }
    }
  }

  /** The fallback turn is dropped exactly when its message, its closing save or a closing event is refused. */
  lemma FallbackDropped(env: Env, w: Run, request: Request, error: LoopError)
    requires w.thread.turn.None?
    ensures Fallback(env, w, request, error).1.Dropped?
       <==> CommitRefused(env, w) || ClosingRefused(env, w.clock + 2)
  {
    hide Commit, Publish, FinalizeFailure, FailureReply, Describe;
    var begun, reply := Opened(w, request.externalMessageId), FailureReply(Describe(error));
    var events := [TextEvent(reply, true)];
    assert begun.thread.turn.Some? && CommitRefused(env, begun) == CommitRefused(env, w);
    CommitFails(env, begun, NewMessage(Assistant, reply), events);
    CommitOutcome(env, begun, NewMessage(Assistant, reply), events);
    var told := Commit(env, begun, NewMessage(Assistant, reply), events);
    if told.error.None? {
      StageMessages(begun, NewMessage(Assistant, reply), events);
      CommitClock(env, begun, NewMessage(Assistant, reply), events);
      FailureCloses(told.run.thread, Describe(error));
      var turn := FinalizeFailure(told.run.thread, Describe(error));
      PublishFails(env, told.run.(thread := turn.snapshot), turn);
    }
  }

  /**
   * Whatever the environment does, a request is dropped exactly when it could not be set up, its
   * loop failed with the turn open, or what closes it was refused: the closing save or events of its
   * turn, or the message, the closing save or events of the turn that stands in for it.
   */
  lemma DroppedExactly(env: Env, w: Run, request: Request, n: nat)
    requires Between(env, w) && w.thread.turn.None?
    ensures var i := Initialize(env, w).run;
            var (r, live) := RunLive(env, i, request.externalMessageId, request.content, n);
            (HandleRequest(env, w, request, n).1.Dropped?
             <==> || SetupFails(env, w)
                  || LeavesOpen(env, i, request, n)
                  || (live.LoopOk? && ClosingRefused(env, r.clock))
                  || (&& live.LoopErr? && !LeavesOpen(env, i, request, n)
                      && (CommitRefused(env, r) || ClosingRefused(env, r.clock + 2))))
  {
    hide Initialize, RunLive, Between, LeavesOpen, CommitRefused, ClosingRefused, SetupFails, Publish, Fallback;
    hide SoleWriter;
    InitializeRests(env, w);
    InitializeFails(env, w);
    var i := Initialize(env, w).run;
    if Initialize(env, w).result.Ok? {
      LiveLeavesOpen(env, i, request, n);
      LiveEndsInStep(env, i, request, n);
      var (r, live) := RunLive(env, i, request.externalMessageId, request.content, n);
      if live.LoopOk? {
        PublishFails(env, r, live.turn);
      } else if live.LoopErr? && r.thread.turn.Some? {
        FallbackRefused(env, r, request, live.error);
      } else if live.LoopErr? {
        FallbackDropped(env, r, request, live.error);
      }
    }
  }

  /**
   * With a reliable store and channel a request is dropped exactly when it could not be set up, or when its loop
   * reaches an iteration that cannot prepare its request, or that is over budget and cannot compact.
   */
  lemma ReliablyDroppedExactly(env: Env, w: Run, request: Request, n: nat)
    requires Between(env, w) && w.thread.turn.None? && Reliable(env)
    ensures var initialized := Initialize(env, w);
            (HandleRequest(env, w, request, n).1.Dropped?
             <==> initialized.result.Err?
                  || (&& env.prepare(initialized.run.clock) && env.hook(initialized.run.clock + 1)
                      && Wedged(env, Heard(env, initialized.run, request), n)))
  {
    hide HandleRequest, Initialize, RunLive, Between, Reliable, Wedged, Heard, CompletedTrace, SoleWriter, LeavesOpen;
    InitializeRests(env, w);
    RequestKeeps(env, w, request, n);
    if Initialize(env, w).result.Ok? {
      LiveLeavesOpen(env, Initialize(env, w).run, request, n);
    }
  }

  /**
   * The store refuses the user message, because it fails or another writer got in first, or its event
   * cannot be sent: the turn is left open, so the request is dropped and every later one with it, and
   * nothing is sent, not even the news of it.
   */
  lemma RefusedMessageLeavesTurnOpen(env: Env, w: Run, request: Request, n: nat)
    requires w.thread.turn.None? && w.thread.messages != []
    requires env.prepare(w.clock) && env.hook(w.clock + 1) && CommitRefused(env, Tick(Tick(w)))
    ensures var (r, outcome) := HandleRequest(env, w, request, n);
            && outcome == Dropped(ThreadRefused(TurnAlreadyOpen))
            && r.thread.turn.Some? && r.thread.messages == w.thread.messages + [NewMessage(User, request.content)]
            && r.emitted == w.emitted && r.requests == w.requests
  {
    hide Commit, NewMessage, Loop, Fallback, Stage;
    var begun, m := Opened(Tick(Tick(w)), request.externalMessageId), NewMessage(User, request.content);
    assert begun.thread.turn.Some? && CommitRefused(env, begun) == CommitRefused(env, Tick(Tick(w)));
    CommitFails(env, begun, m, []);
    CommitOutcome(env, begun, m, []);
    StageMessages(begun, m, []);
    var (r, live) := RunLive(env, w, request.externalMessageId, request.content, n);
    FallbackRefused(env, r, request, live.error);
  }

  /**
   * A request whose history is over budget while its summarizer fails: the loop fails with the
   * turn open, so the request is dropped and every later one with it.
   */
  lemma FailedCompactionLeavesTurnOpen(env: Env, w: Run, request: Request, n: nat)
    requires Between(env, w) && w.thread.turn.None? && w.thread.messages != [] && n > 0
    requires Reliable(env) && env.compactEnabled
    requires forall k: nat :: env.hook(k) && env.prepare(k) && env.overBudget(k) && env.summarize(k).SummarizerFails?
    ensures var (r, outcome) := HandleRequest(env, w, request, n);
            && outcome == Dropped(ThreadRefused(TurnAlreadyOpen))
            && r.thread.turn.Some? && r.thread.messages == w.thread.messages + [NewMessage(User, request.content)]
  {
    hide RunTurn, Opened, NewMessage, Between, Reliable;
    var ready := Tick(Tick(w));
    RestsOf(env, ready, w);
    StuckTurn(env, ready, request.externalMessageId, request.content, n);
    var (r, live) := RunLive(env, w, request.externalMessageId, request.content, n);
    FallbackRefused(env, r, request, live.error);
  }

  lemma RestsOf(env: Env, w: Run, before: Run)
    requires Between(env, before) && w == Tick(Tick(before)) && before.thread.turn.None?
    ensures AtRest(env, w) && (Reliable(env) ==> w.thread.revision == w.store.revision)
  {
    ReliableIsSole(env);
  }

  lemma NonSystemLast(h: seq<Message>, m: Message)
    requires m.role != System
    ensures NonSystem(h + [m]) != []
    decreases |h|
  {
    if h == [] {
      assert h + [m] == [m];
    } else {
      assert (h + [m])[1..] == h[1..] + [m];
      NonSystemLast(h[1..], m);
    }
  }

  lemma StuckTurn(env: Env, w: Run, externalMessageId: Option<string>, content: string, n: nat)
    requires AtRest(env, w) && Reliable(env) && env.compactEnabled && n > 0 && w.thread.revision == w.store.revision
    requires forall k: nat :: env.hook(k) && env.prepare(k) && env.overBudget(k) && env.summarize(k).SummarizerFails?
    ensures var (r, live) := RunTurn(env, Opened(w, externalMessageId), content, n);
            && live.LoopErr? && r.thread.turn.Some?
            && r.thread.messages == w.thread.messages + [NewMessage(User, content)]
  {
    hide Reliable, Commit, Iterate, Stage, Buffer, Append;
    var begun := Opened(w, externalMessageId);
    CommitOutcome(env, begun, NewMessage(User, content), []);
    StageMessages(begun, NewMessage(User, content), []);
    var heard := Commit(env, begun, NewMessage(User, content), []).run;
    NonSystemLast(w.thread.messages, NewMessage(User, content));
    StuckIteration(env, heard);
    assert Loop(env, heard, n) == Iterate(env, heard);
  }

  lemma StageMessages(w: Run, message: Message, events: seq<TurnEvent>)
    requires w.thread.turn.Some?
    ensures Stage(w, message, events).thread.messages == w.thread.messages + [message]
    ensures Stage(w, message, events).thread.turn.Some?
  {
  }

  lemma StuckIteration(env: Env, w: Run)
    requires w.thread.turn.Some? && NonSystem(w.thread.messages) != [] && env.compactEnabled
    requires forall k: nat :: env.hook(k) && env.prepare(k) && env.overBudget(k) && env.summarize(k).SummarizerFails?
    ensures Iterate(env, w).1.Hard? && Iterate(env, w).0.thread == w.thread
  {
    hide AskModel, Conclude, NonSystem;
    NonSystemOfNone();
    assert env.prepare(w.clock) && env.overBudget(w.clock + 1) && env.hook(w.clock + 2)
           && env.summarize(w.clock + 3).SummarizerFails?;
  }

  lemma NonSystemOfNone()
    ensures NonSystem([]) == []
  {
  }

  // ---- Many requests ---------------------------------------------------------------------------

  /** One request and the number of loop iterations it is observed for. */
  datatype Job = Job(request: Request, iterations: nat)

  /** The worker loop over one thread: a request that is still running is the last one seen. */
  function Serve(env: Env, w: Run, jobs: seq<Job>): Run
    decreases |jobs|
  {
    hide HandleRequest;
    if jobs == [] then w
    else
      var handled := HandleRequest(env, w, jobs[0].request, jobs[0].iterations);
      if handled.1.InProgress? then handled.0 else Serve(env, handled.0, jobs[1..])
  }

  lemma OpenTurnRests(env: Env, w: Run, request: Request, n: nat)
    requires Between(env, w) && w.thread.turn.Some?
    ensures var (r, outcome) := HandleRequest(env, w, request, n);
            Between(env, r) && OwnSaves(env, w, r)
  {
    hide Initialize, RunTurn, Opened, Between, SoleWriter;
    InitializeRests(env, w);
    var i := Initialize(env, w);
    if i.result.Ok? {
      BetweenFrame(env, i.run, Tick(i.run));
      BetweenFrame(env, i.run, Tick(Tick(i.run)));
    }
  }

  lemma BetweenFrame(env: Env, w: Run, w': Run)
    requires Between(env, w) && w' == w.(clock := w'.clock)
    ensures Between(env, w')
  {
  }

  /** Whatever becomes of each request, the thread is left fit for the next one. */
  lemma {:induction false} ServeKeeps(env: Env, w: Run, jobs: seq<Job>)
    requires Between(env, w)
    ensures Between(env, Serve(env, w, jobs)) && OwnSaves(env, w, Serve(env, w, jobs))
    decreases |jobs|
  {
    hide HandleRequest, Between, SoleWriter, CompletedTrace, Reliable;
    if jobs != [] {
      if w.thread.turn.None? {
        RequestKeeps(env, w, jobs[0].request, jobs[0].iterations);
      } else {
        OpenTurnRests(env, w, jobs[0].request, jobs[0].iterations);
      }
      var handled := HandleRequest(env, w, jobs[0].request, jobs[0].iterations);
      if !handled.1.InProgress? {
        ServeKeeps(env, handled.0, jobs[1..]);
      }
    }
  }

  /** A thread nothing has happened to. */
  predicate Fresh(w: Run) {
    && w.thread.messages == [] && w.thread.turn.None? && w.requests == [] && w.thread.revision == w.store.revision
    && !w.torn
  }

  /**
   * End to end: over any number of requests, for any model, tools, summarizer, store and channel,
   * every history sent to the provider serializes, and on the wire every tool call is answered at once
   * and in order exactly when no batch since the last rewrite had torn the history; as long as every
   * batch ran to its end with no rewrite inside it, none has.
   */
  lemma EveryRequestPaired(env: Env, w: Run, jobs: seq<Job>)
    requires Fresh(w)
    ensures var served := Serve(env, w, jobs);
            && (forall i | 0 <= i < |served.requests| ::
                  && Serializable(served.requests[i].messages)
                  && (WellPaired(WireOf(served.requests[i].messages)) <==> !served.requests[i].torn))
            && (served.intact ==> AllPaired(served.requests))
  {
    hide Serve, WellPaired, WireOf, Serializable, SoleWriter, Hopeless;
    assert Ready([]) by { PlainIsReady([]); }
    StandingOfReady([]);
    ServeKeeps(env, w, jobs);
  }

  /** A sole writer never meets a revision conflict, however many requests it serves. */
  lemma ServingNeverConflicts(env: Env, w: Run, jobs: seq<Job>)
    requires Between(env, w) && SoleWriter(env)
    ensures var served := Serve(env, w, jobs);
            && served.conflicts == w.conflicts
            && served.thread.revision == served.store.revision == w.store.revision + (served.saves - w.saves)
  {
    hide Serve, SoleWriter, Sound;
    ServeKeeps(env, w, jobs);
  }
}
