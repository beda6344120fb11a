/** The worker: one request from the locked thread to its completion event, and many in a row. */
module AgentWorker {
  import opened Wrappers
  import opened ChatModel
  import opened ThreadAggregate
  import opened AgentLoop
  import opened AgentTurn
  import opened ToolPairing
  import opened TurnRuns
  import opened TurnReplies

  datatype Request = Request(externalMessageId: Option<string>, content: string)

  /**
   * How a request ends: observed too briefly, completed (after a loop failure or not), or dropped without a
   * completion event.
   */
  datatype Outcome = InProgress | Completed(failure: Option<LoopError>) | Dropped(error: LoopError)

  function SystemMessages(contents: seq<string>): (messages: seq<Message>)
    ensures |messages| == |contents|
    ensures forall i | 0 <= i < |messages| :: messages[i] == NewMessage(System, contents[i])
  {
    seq(|contents|, i requires 0 <= i < |contents| => NewMessage(System, contents[i]))
  }

  /** `initialize_thread` and the save after it; the value says whether the thread was initialized. */
  function Initialize(env: Env, w: Run): Valued<bool> {
    if w.thread.messages != [] then Valued(w, Ok(false))
    else
      match env.prompts(w.clock)
      case PromptsFail => Valued(Tick(w), Err(PrepareError))
      case Prompts(contents) =>
        if contents == [] then Valued(Tick(w), Ok(false))
        else
          var filled := Tick(w).(thread := w.thread.(messages := SystemMessages(contents)));
          var saved := Save(env, filled, filled.thread, None);
          if saved.result.Err? then Valued(saved.run, Err(saved.result.error))
          else Valued(saved.run.(thread := saved.result.value), Ok(true))
  }

  function RecordOf(turn: FinalizedTurn): Option<(string, nat)> {
    if turn.externalMessageId.Some? then Some((turn.externalMessageId.value, turn.turnId)) else None
  }

  /** `commit_finalized_turn_locked`, then the two closing events. */
  function Publish(env: Env, w: Run, turn: FinalizedTurn): Step {
    var saved := Save(env, w, turn.snapshot, RecordOf(turn));
    if saved.result.Err? then Step(saved.run, Some(saved.result.error))
    else
      var finalized := Emit(env, saved.run.(thread := saved.result.value), TurnFinalized(turn));
      if finalized.error.Some? then finalized else Emit(env, finalized.run, RequestCompleted)
  }

  function Settle(published: Step, failure: Option<LoopError>): (Run, Outcome) {
    (published.run, if published.error.Some? then Dropped(published.error.value) else Completed(failure))
  }

  /** The turn that stands in for one the loop failed to finish. */
  function Fallback(env: Env, w: Run, request: Request, error: LoopError): (Run, Outcome) {
    if w.thread.turn.Some? then (w, Dropped(ThreadRefused(TurnAlreadyOpen)))
    else
      var reply := FailureReply(Describe(error));
      var told := Commit(env, Opened(w, request.externalMessageId), NewMessage(Assistant, reply),
                         [TextEvent(reply, true)]);
      if told.error.Some? || told.run.thread.turn.None?
          then (told.run, Dropped(told.error.GetOr(ThreadRefused(NoActiveTurn))))
      else
        var turn := FinalizeFailure(told.run.thread, Describe(error));
        Settle(Publish(env, told.run.(thread := turn.snapshot), turn), Some(error))
  }

  function Finish(env: Env, w: Run, request: Request, live: LiveOutcome): (Run, Outcome) {
    match live
    case StillRunning => (w, InProgress)
    case LoopOk(turn) => Settle(Publish(env, w, turn), None)
    case LoopErr(error) => Fallback(env, w, request, error)
  }

  /** `handle_request`, with the loop observed for at most `n` iterations. */
  function HandleRequest(env: Env, w: Run, request: Request, n: nat): (Run, Outcome) {
    var initialized := Initialize(env, w);
    if initialized.result.Err? then (initialized.run, Dropped(initialized.result.error))
    else
      var live := RunLive(env, initialized.run, request.externalMessageId, request.content, n);
      Finish(env, live.0, request, live.1)
  }

  // ---- What holds between requests -----------------------------------------------------------

  /** The thread as a request finds or leaves it. */
  ghost predicate Between(env: Env, w: Run) {
    && (SoleWriter(env) ==> w.thread.revision == w.store.revision)
    && Sound(w)
  }

  /** From `w` to `w'` the store moved by the run's own saves alone, and no save conflicted. */
  ghost predicate OwnSaves(env: Env, w: Run, w': Run) {
    SoleWriter(env) ==>
      && w.saves <= w'.saves
      && w'.store.revision == w.store.revision + (w'.saves - w.saves)
      && w'.conflicts == w.conflicts
  }

  /** The thread holds one system message for each prompt, in order, and so does the store. */
  predicate FilledWith(prompts: Prompts, w: Run) {
    && prompts.Prompts? && |w.thread.messages| == |prompts.contents| > 0
    && (forall i | 0 <= i < |prompts.contents| ::
          w.thread.messages[i] == Message(System, prompts.contents[i], [], None))
    && w.store.snapshot == Some(w.thread)
  }

  lemma InitializeRests(env: Env, w: Run)
    requires Between(env, w)
    ensures var i := Initialize(env, w);
            && Between(env, i.run) && OwnSaves(env, w, i.run)
            && i.run.thread.turn == w.thread.turn && i.run.emitted == w.emitted && i.run.store.dedup == w.store.dedup
            && i.run.requests == w.requests
            && (i.result.Ok? ==> i.run.saves == w.saves + (if i.result.value then 1 else 0))
            && (i.result == Ok(true) ==> FilledWith(env.prompts(w.clock), i.run))
            && (i.result == Ok(false) ==> i.run.thread == w.thread)
            && (w.thread.messages != [] ==> i.run == w)
  {
    hide Standing, ExactlyPaired, NoneTorn, SoleWriter, Save, SystemMessages;
    if w.thread.messages == [] && env.prompts(w.clock).Prompts? {
      var contents := env.prompts(w.clock).contents;
      var filled := Tick(w).(thread := w.thread.(messages := SystemMessages(contents)));
      EmptyIsNotTorn(w.torn);
      PlainIsReady(SystemMessages(contents));
      StandingOfReady(SystemMessages(contents));
      SaveOutcome(env, filled, filled.thread, None);
      if SoleWriter(env) {
        SaveInStep(env, filled, filled.thread, None);
      }
    }
  }

  /** What the closing save and the two closing events leave behind. */
  lemma PublishOutcome(env: Env, w: Run, turn: FinalizedTurn)
    requires turn.snapshot == w.thread && Between(env, w)
    ensures var p := Publish(env, w, turn);
            && Between(env, p.run) && OwnSaves(env, w, p.run)
            && p.run.thread == w.thread.(revision := p.run.thread.revision)
            && p.run.requests == w.requests
            && (p.error.None? ==>
                  && p.run.saves == w.saves + 1
                  && p.run.store.snapshot == Some(p.run.thread)
                  && p.run.thread.revision == p.run.store.revision
                  && p.run.store.dedup == Bound(w.store.dedup, RecordOf(turn))
                  && p.run.emitted == w.emitted + [Emission(TurnFinalized(turn), p.run.store),
                                                   Emission(RequestCompleted, p.run.store)])
            && (Reliable(env) && w.thread.revision == w.store.revision ==> p.error.None?)
  {
    hide Save, Reliable, SoleWriter, Standing, ExactlyPaired, NoneTorn, Bound;
    SaveOutcome(env, w, turn.snapshot, RecordOf(turn));
    if SoleWriter(env) {
      SaveInStep(env, w, turn.snapshot, RecordOf(turn));
    }
    if Reliable(env) {
      AnswersOfReliable(env, w.clock);
      AnswersOfReliable(env, w.clock + 1);
      AnswersOfReliable(env, w.clock + 2);
    }
  }

  // ---- One request ---------------------------------------------------------------------------

  /** The origin of the turn that `run_live_thread` opens on `w`: two fallible steps come first. */
  function LiveOrigin(w: Run, externalMessageId: Option<string>): Origin {
    OriginOf(Tick(Tick(w)), externalMessageId)
  }

  /** How `run_live_thread` leaves a thread that was between turns. */
  lemma LiveKeeps(env: Env, w: Run, externalMessageId: Option<string>, content: string, n: nat)
    requires Between(env, w) && w.thread.turn.None?
    ensures var o, (r, live) := LiveOrigin(w, externalMessageId), RunLive(env, w, externalMessageId, content, n);
            && Between(env, r) && OwnSaves(env, w, r)
            && OnlyCommits(o, r)
            && (live.LoopOk? ==> TurnClosed(o, env, r, live.turn))
  {
    hide Opened, RunTurn, TurnInvariant, Standing, ExactlyPaired, NoneTorn, Published, Visible, EventsOf, HistoryOf;
    hide LogWithoutSystem, SoleWriter, Reliable;
    var ready := Tick(Tick(w));
    if env.prepare(w.clock) && env.hook(w.clock + 1) {
      TurnOutcome(env, ready, externalMessageId, content, n);
      var ended := RunTurn(env, Opened(ready, externalMessageId), content, n);
      if ended.1.StillRunning? {
        InvariantParts(LiveOrigin(w, externalMessageId), env, ended.0);
      }
    }
  }

  /** An event list that one completed request extends by commits, then the finalized turn, then the completion. */
  ghost predicate CompletedTrace(before: seq<Emission>, after: seq<Emission>, dedup: map<string, nat>,
      request: Request)
  {
    var n := |after|;
    && |before| + 3 <= n
    && after[..|before|] == before
    && (forall i | |before| <= i < n - 2 ::
          after[i].event.MessageCommitted? && AlreadyStored(after[i]) && after[i].store.dedup == dedup)
    && after[n - 1].event == RequestCompleted
    && after[n - 2].event.TurnFinalized?
    && FinalizedWithDedup(after[n - 2], dedup, request)
  }

  /** The stored snapshot is the finalized one, and its dedup record came with it. */
  ghost predicate FinalizedWithDedup(e: Emission, dedup: map<string, nat>, request: Request)
    requires e.event.TurnFinalized?
  {
    var turn := e.event.turn;
    && turn.externalMessageId == request.externalMessageId
    && e.store.snapshot == Some(turn.snapshot.(revision := e.store.revision))
    && turn.snapshot.turn.None?
    && e.store.dedup == (if request.externalMessageId.Some? then dedup[request.externalMessageId.value := turn.turnId]
                         else dedup)
  }

  lemma PublishTrace(o: Origin, env: Env, w: Run, turn: FinalizedTurn, before: seq<Emission>, request: Request)
    requires turn.snapshot == w.thread && w.thread.turn.None? && Between(env, w)
    requires turn.externalMessageId == request.externalMessageId
    requires |before| < |w.emitted| && w.emitted[..|before|] == before
    requires w.store.dedup == o.dedup
    requires forall i | |before| <= i < |w.emitted| ::
               w.emitted[i].event.MessageCommitted? && AlreadyStored(w.emitted[i])
                   && w.emitted[i].store.dedup == o.dedup
    ensures Publish(env, w, turn).error.None? ==> CompletedTrace(before, Publish(env, w, turn).run.emitted, o.dedup,
                                                                 request)
  {
    hide Publish, Between, AlreadyStored;
    PublishOutcome(env, w, turn);
    var p := Publish(env, w, turn);
    if p.error.None? {
      var after, n := p.run.emitted, |p.run.emitted|;
      assert n == |w.emitted| + 2 && after[n - 2] == Emission(TurnFinalized(turn), p.run.store);
      assert forall i | 0 <= i < |w.emitted| :: after[i] == w.emitted[i];
    }
  }

  /** The fallback turn of a request whose loop failed with no turn open. */
  lemma FallbackKeeps(env: Env, w: Run, request: Request, error: LoopError, before: seq<Emission>)
    requires Between(env, w) && w.thread.turn.None?
    requires |before| <= |w.emitted| && w.emitted[..|before|] == before
    requires forall i | |before| <= i < |w.emitted| ::
               w.emitted[i].event.MessageCommitted? && AlreadyStored(w.emitted[i])
                   && w.emitted[i].store.dedup == w.store.dedup
    ensures var (r, outcome) := Fallback(env, w, request, error);
            && Between(env, r) && OwnSaves(env, w, r)
            && (outcome.Completed? ==>
                  && outcome.failure == Some(error) && CompletedTrace(before, r.emitted, w.store.dedup, request)
                  && FailedWith(r.emitted[|r.emitted| - 2].event.turn, Describe(error)))
            && (Reliable(env) ==> outcome.Completed?)
            && !outcome.InProgress?
  {
    hide Opened, OriginOf, Commit, Publish, TurnInvariant, Sound, SoundNext, CompletedTrace, AlreadyStored, SoleWriter;
    hide Reliable;
    hide Published, Visible, EventsOf, HistoryOf, LogWithoutSystem, FinalizeFailure, CloseTurn, FailureReply, Describe;
    hide EndsInText, FailedWith;
    var o, begun := OriginOf(w, request.externalMessageId), Opened(w, request.externalMessageId);
    OpeningStartsInvariant(env, w, request.externalMessageId);
    var reply := FailureReply(Describe(error));
    SoundIsNext(begun);
    CommitPlain(o, env, begun, Assistant, reply, [TextEvent(reply, true)]);
    var told := Commit(env, begun, NewMessage(Assistant, reply), [TextEvent(reply, true)]);
    InvariantParts(o, env, told.run);
    TurnParts(o, env, told.run);
    ReliableIsSole(env);
    OriginParts(w, request.externalMessageId);
    if told.error.None? {
      var turn := FinalizeFailure(told.run.thread, Describe(error));
      var closed := told.run.(thread := turn.snapshot);
      FailureCloses(told.run.thread, Describe(error));
      OpenTurns(o, env, begun);
      TextEnds(env, begun, reply, true);
      FallbackSays(told.run, Describe(error));
      assert Sound(closed) by { SoundFrame(told.run, closed); }
      PublishTrace(o, env, closed, turn, before, request);
      PublishOutcome(env, closed, turn);
    }
  }

  lemma FallbackSays(w: Run, error: string)
    requires EndsInText(w, FailureReply(error), true)
    ensures FailedWith(FinalizeFailure(w.thread, error), error)
  {
  }

  lemma FailureCloses(t: ThreadState, error: string)
    requires t.turn.Some?
    ensures var turn := FinalizeFailure(t, error);
            && turn.snapshot.turn.None? && turn.snapshot.messages == t.messages && turn.snapshot.revision == t.revision
            && turn.externalMessageId == t.turn.value.externalMessageId
  {
  }

  lemma TurnParts(o: Origin, env: Env, w: Run)
    requires TurnInvariant(o, env, w)
    ensures w.thread.turn.Some? && w.thread.turn.value.externalMessageId == o.externalMessageId
  {
  }

  lemma OriginParts(w: Run, externalMessageId: Option<string>)
    ensures var o := OriginOf(w, externalMessageId);
            && o.emitted == w.emitted && o.saves == w.saves && o.conflicts == w.conflicts && o.dedup == w.store.dedup
            && o.revision == w.store.revision && o.externalMessageId == externalMessageId
               && o.messages == w.thread.messages
    ensures Opened(w, externalMessageId).emitted == w.emitted
  {
  }

  lemma SoundFrame(w: Run, w': Run)
    requires Sound(w) && w'.intact == w.intact && w'.torn == w.torn && w'.requests == w.requests
    requires w'.thread.messages == w.thread.messages
    ensures Sound(w')
  {
  }

  /**
   * Whether `handle_request` dropped the request: exactly when it was never set up, or its loop failed
   * inside an open turn.
   */
  ghost predicate DroppedUnfinished(env: Env, w: Run, request: Request, n: nat) {
    var initialized := Initialize(env, w);
    initialized.result.Err? ||
    var (r, live) := RunLive(env, initialized.run, request.externalMessageId, request.content, n);
    live.LoopErr? && r.thread.turn.Some?
  }

  /** All that one request does to a thread found between turns. */
  lemma RequestKeeps(env: Env, w: Run, request: Request, n: nat)
    requires Between(env, w) && w.thread.turn.None?
    ensures var (r, outcome) := HandleRequest(env, w, request, n);
            && Between(env, r) && OwnSaves(env, w, r)
            && (outcome.Completed? ==> CompletedTrace(w.emitted, r.emitted, w.store.dedup, request))
            && (Reliable(env) ==> (outcome.Dropped? <==> DroppedUnfinished(env, w, request, n)))
  {
    hide Initialize, RunLive, Publish, Fallback, TurnClosed, Between, SoleWriter, Reliable, CompletedTrace;
    hide OnlyCommits, AlreadyStored, OriginOf;
    InitializeRests(env, w);
    var initialized := Initialize(env, w);
    if initialized.result.Ok? {
      var i := initialized.run;
      LiveKeeps(env, i, request.externalMessageId, request.content, n);
      var (r, live) := RunLive(env, i, request.externalMessageId, request.content, n);
      var o := LiveOrigin(i, request.externalMessageId);
      OriginParts(Tick(Tick(i)), request.externalMessageId);
      CommitsSoFar(o, r);
      if live.LoopOk? {
        ClosedParts(o, env, r, live.turn);
        PublishTrace(o, env, r, live.turn, w.emitted, request);
        PublishOutcome(env, r, live.turn);
        InStepOf(env, r);
      } else if live.LoopErr? && r.thread.turn.None? {
        FallbackKeeps(env, r, request, live.error, w.emitted);
      } else if live.LoopErr? {
        FallbackRefused(env, r, request, live.error);
      }
    }
  }

  lemma FallbackRefused(env: Env, w: Run, request: Request, error: LoopError)
    requires w.thread.turn.Some?
    ensures Fallback(env, w, request, error) == (w, Dropped(ThreadRefused(TurnAlreadyOpen)))
  {
  }

  lemma CommitsSoFar(o: Origin, w: Run)
    requires OnlyCommits(o, w)
    ensures w.store.dedup == o.dedup && |o.emitted| <= |w.emitted| && w.emitted[..|o.emitted|] == o.emitted
    ensures forall i | |o.emitted| <= i < |w.emitted| ::
              w.emitted[i].event.MessageCommitted? && AlreadyStored(w.emitted[i]) && w.emitted[i].store.dedup == o.dedup
  {
  }

  lemma ClosedParts(o: Origin, env: Env, w: Run, turn: FinalizedTurn)
    requires TurnClosed(o, env, w, turn)
    ensures turn.snapshot == w.thread && w.thread.turn.None?
    ensures turn.externalMessageId == o.externalMessageId && |o.emitted| < |w.emitted|
  {
  }

  lemma InStepOf(env: Env, w: Run)
    requires Between(env, w)
    ensures Reliable(env) ==> w.thread.revision == w.store.revision
  {
    ReliableIsSole(env);
  }
}
