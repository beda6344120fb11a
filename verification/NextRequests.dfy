/** What the next request after a batch is, and exactly when it is paired. */
module NextRequests {
  import opened Wrappers
  import opened Text
  import opened ChatModel
  import opened OpenAiMessages
  import opened ThreadAggregate
  import opened AgentLoop
  import opened AgentTurn
  import opened ToolPairing
  import opened FailedBatches
  import opened TurnRuns
  import opened AgentWorker
  import opened WorkerRuns

  // ---- The request of the next iteration -------------------------------------------------------

  /** Neither nothing nor an assistant message without calls makes a difference to what a batch tears. */
  lemma PlainTearsNothing(torn: bool, said: seq<LogEntry>, more: seq<LogEntry>)
    requires said == [] || (|said| == 1 && said[0].Appended? && said[0].message.role == Assistant)
    ensures Torn(torn, said + more) == Torn(torn, more)
    ensures LastRewrite(said + more) == LastRewrite(more)
    ensures Torn(torn, []) == torn
  {
    if said == [] {
      assert said + more == more;
    } else {
      var m := said[0].message;
      assert said == [Appended(m)];
      OneAppended([], m);
      LogAppend(said, more);
      assert ([m] + SinceRewrite(more))[1..] == SinceRewrite(more);
    }
  }

  /** What an optional assistant text before a batch does. */
  lemma PreambleFrame(env: Env, w: Run, text: Option<string>) returns (said: seq<LogEntry>)
    requires w.thread.turn.Some?
    ensures var p := Preamble(env, w, text).run;
            && p.requests == w.requests && p.torn == w.torn && p.log == w.log + said
    ensures said == [] || (|said| == 1 && said[0].Appended? && said[0].message.role == Assistant)
  {
    hide Commit;
    said := [];
    if text.Some? && !IsBlank(text.value) {
      var m := NewMessage(Assistant, text.value);
      CommitOutcome(env, w, m, [TextEvent(text.value, false)]);
      said := [Appended(m)];
    }
  }

  /** One pass sends what the history is when it asks, and nothing else. */
  lemma PassSends(o: Origin, env: Env, w: Run)
    requires TurnInvariant(o, env, w) && Sound(w)
    ensures AskModel(env, w).0.requests
         == if env.prepare(w.clock) then w.requests + [Sent(w.thread.messages, w.torn)] else w.requests
  {
    hide TurnInvariant, Commit, Batch, Preamble, Sound;
    OpenTurns(o, env, w);
    if env.prepare(w.clock) {
      var asked := Tick(w).(requests := w.requests + [Sent(w.thread.messages, w.torn)]);
      var told := Tick(asked);
      FrameKeeps(o, env, w, told);
      AskedIsSound(w);
      match env.generate(asked.clock)
      case ModelFails(_) =>
      case ModelReply(text, calls) =>
        var _ := PreambleFrame(env, told, text);
        if calls != [] {
          PreambleCarries(o, env, told, text);
          BatchKeeps(o, env, Preamble(env, told, text).run, calls);
        } else if text.Some? {
          CommitOutcome(env, told, NewMessage(Assistant, text.value), [TextEvent(text.value, false)]);
        }
    }
  }

  /** One iteration sends what the history is after its compaction, and a failed pass leaves it torn or not. */
  lemma IterationSends(o: Origin, env: Env, w: Run)
    requires TurnInvariant(o, env, w) && Sound(w)
    ensures var (r, compacted) := (Iterate(env, w).0, RuntimeCompact(env, Tick(w)));
            r.requests == if env.prepare(w.clock) && compacted.error.None? && env.prepare(compacted.run.clock)
                          then w.requests + [Sent(compacted.run.thread.messages, compacted.run.torn)]
                          else w.requests
    ensures var (r, asked) := (Iterate(env, w).0, AskModel(env, RuntimeCompact(env, Tick(w)).run));
            env.prepare(w.clock) && RuntimeCompact(env, Tick(w)).error.None? ==> r.torn == asked.0.torn
  {
    hide TurnInvariant, AskModel, Commit, Compact, Sound, SoundNext, NonSystem;
    FrameKeeps(o, env, w, Tick(w));
    FrameKeeps(o, env, w, Tick(Tick(w)));
    TickSound(w);
    RuntimeCompactCarries(o, env, Tick(w));
    CompactKeeps(o, env, Tick(Tick(w)), None);
    var compacted := RuntimeCompact(env, Tick(w)).run;
    PassSends(o, env, compacted);
    AskModelCarries(o, env, compacted);
    var (asked, pass) := AskModel(env, compacted);
    OpenTurns(o, env, asked);
    if pass.PassFailed? {
      var reply := FailureReply(Describe(pass.error));
      CommitOutcome(env, asked, NewMessage(Assistant, reply), [TextEvent(reply, true)]);
    }
  }

  /**
   * Whether a pass leaves the history torn can be read off what it added, however it ends; a batch that
   * ran to its end tears it by a rewrite alone.
   */
  lemma PassTears(o: Origin, env: Env, w: Run)
    requires TurnInvariant(o, env, w) && Sound(w)
    ensures var (r, pass) := AskModel(env, w);
            && w.log <= r.log
            && r.torn == Torn(w.torn, r.log[|w.log|..])
            && (pass.UsedTools? ==> (r.torn <==> w.torn || LastRewrite(r.log[|w.log|..]).Some?))
  {
    hide TurnInvariant, UseTools, Commit, Sound, LastRewrite, Torn, IsBlank;
    OpenTurns(o, env, w);
    PlainTearsNothing(w.torn, [], []);
    assert w.log[|w.log|..] == [];
    var told := Tick(Tick(w).(requests := w.requests + [Sent(w.thread.messages, w.torn)]));
    FrameKeeps(o, env, w, told);
    AskedIsSound(w);
    match env.generate(w.clock + 1)
    case ModelFails(_) =>
    case ModelReply(text, calls) =>
      if calls != [] {
        ToolsTear(o, env, told, text, calls);
      } else if text.Some? {
        var m := NewMessage(Assistant, text.value);
        CommitOutcome(env, told, m, [TextEvent(text.value, false)]);
        PlainTearsNothing(w.torn, [Appended(m)], []);
        assert [Appended(m)] + [] == [Appended(m)];
      }
  }

  lemma ToolsTear(o: Origin, env: Env, w: Run, text: Option<string>, calls: seq<ToolCall>)
    requires TurnInvariant(o, env, w) && Sound(w) && calls != []
    ensures var (r, pass) := UseTools(env, w, text, calls);
            && w.log <= r.log
            && r.torn == Torn(w.torn, r.log[|w.log|..])
            && (pass.UsedTools? ==> (r.torn <==> w.torn || LastRewrite(r.log[|w.log|..]).Some?))
  {
    hide TurnInvariant, Batch, Preamble, Sound, LastRewrite, Torn;
    OpenTurns(o, env, w);
    var plain := PreambleFrame(env, w, text);
    PreambleCarries(o, env, w, text);
    var said := Preamble(env, w, text);
    var r := UseTools(env, w, text, calls).0;
    if said.error.Some? {
      PlainTearsNothing(w.torn, plain, []);
      assert r.log[|w.log|..] == plain + [];
    } else {
      StandingOfSound(said.run);
      UserIsPlain("");
      BatchKeepsStanding(o, env, said.run, calls, NewMessage(User, ""));
      var added := r.log[|said.run.log|..];
      PlainTearsNothing(w.torn, plain, added);
      assert r.log[|w.log|..] == plain + added;
    }
  }

  lemma StandingOfSound(w: Run)
    requires Sound(w)
    ensures Standing(w.torn, w.thread.messages)
  {
  }

  /**
   * After a batch that ran to its end, with no compaction in between, the next iteration sends the
   * history as the batch left it: paired exactly when it was not torn before and no call of the batch rewrote it.
   */
  lemma NextRequest(o: Origin, env: Env, w: Run)
    requires TurnInvariant(o, env, w) && Sound(w) && AskModel(env, w).1.UsedTools?
    requires var r := AskModel(env, w).0;
             && env.prepare(r.clock) && env.prepare(r.clock + 2)
             && !(env.compactEnabled && env.overBudget(r.clock + 1))
    ensures var r := AskModel(env, w).0;
            && w.log <= r.log
            && Iterate(env, r).0.requests == r.requests + [Sent(r.thread.messages, r.torn)]
            && (WellPaired(WireOf(r.thread.messages)) <==> !w.torn && LastRewrite(r.log[|w.log|..]).None?)
  {
    hide TurnInvariant, AskModel, Iterate, Sound, SoundNext, WellPaired, WireOf, LastRewrite, NonSystem;
    PassTears(o, env, w);
    AskModelCarries(o, env, w);
    var r := AskModel(env, w).0;
    IterationSends(o, env, r);
    StandingOfSound(r);
    StandingDecides(r.torn, r.thread.messages);
  }

  // ---- The first request of the next turn ------------------------------------------------------

  lemma {:induction false} LoopSendsMore(o: Origin, env: Env, w: Run, n: nat)
    requires TurnInvariant(o, env, w) && Sound(w)
    ensures w.requests <= Loop(env, w, n).0.requests
    decreases n
  {
    hide TurnInvariant, Iterate, Sound;
    if n > 0 {
      IterationSends(o, env, w);
      IterateCarries(o, env, w);
      if Iterate(env, w).1.Again? {
        LoopSendsMore(o, env, Iterate(env, w).0, n - 1);
      }
    }
  }

  lemma LoopOnce(env: Env, w: Run, n: nat)
    requires n > 0
    ensures Loop(env, w, n) == if Iterate(env, w).1.Again? then Loop(env, Iterate(env, w).0, n - 1) else Iterate(env, w)
  {
    hide Iterate;
  }

  lemma CarriedOn(o: Origin, env: Env, w: Run, w': Run)
    requires Carries(o, env, w, w')
    ensures TurnInvariant(o, env, w') && Sound(w')
  {
    hide TurnInvariant, Sound;
  }

  /** A loop that need not compact first sends the history it starts from. */
  lemma LoopSendsFirst(o: Origin, env: Env, w: Run, n: nat)
    requires TurnInvariant(o, env, w) && Sound(w) && n > 0
    requires env.prepare(w.clock) && env.prepare(w.clock + 2) && !(env.compactEnabled && env.overBudget(w.clock + 1))
    ensures w.requests + [Sent(w.thread.messages, w.torn)] <= Loop(env, w, n).0.requests
  {
    hide TurnInvariant, Iterate, Sound, NonSystem, Loop, Carries;
    IterationSends(o, env, w);
    IterateCarries(o, env, w);
    CarriedOn(o, env, w, Iterate(env, w).0);
    LoopOnce(env, w, n);
    if Iterate(env, w).1.Again? {
      LoopSendsMore(o, env, Iterate(env, w).0, n - 1);
    }
  }

  lemma FallbackFrame(env: Env, w: Run, request: Request, error: LoopError)
    ensures var r := Fallback(env, w, request, error).0;
            r.requests == w.requests && r.torn == w.torn
  {
    hide Commit, Publish, FinalizeFailure, FailureReply, Describe;
    if w.thread.turn.None? {
      var begun, reply := Opened(w, request.externalMessageId), FailureReply(Describe(error));
      assert begun.thread.turn.Some?;
      CommitOutcome(env, begun, NewMessage(Assistant, reply), [TextEvent(reply, true)]);
      var told := Commit(env, begun, NewMessage(Assistant, reply), [TextEvent(reply, true)]);
      if told.error.None? && told.run.thread.turn.Some? {
        var turn := FinalizeFailure(told.run.thread, Describe(error));
        PublishFrame(env, told.run.(thread := turn.snapshot), turn);
      }
    }
  }

  /** The message is committed, and the loop begins. */
  predicate GetsHeard(env: Env, w: Run) {
    && w.thread.messages != [] && env.prepare(w.clock) && env.hook(w.clock + 1)
    && !CommitRefused(env, Tick(Tick(w)))
  }

  /** However a request ends, its history is torn exactly if its loop left it so, and nothing more is sent. */
  lemma RequestSends(env: Env, w: Run, request: Request, n: nat)
    requires Between(env, w) && w.thread.turn.None? && GetsHeard(env, w)
    ensures var (r, looped) := (HandleRequest(env, w, request, n).0, Loop(env, Heard(env, w, request), n).0);
            r.requests == looped.requests && r.torn == looped.torn
  {
    hide Commit, Loop, Publish, Fallback, FinalizeSuccess, FinalizeFailure, Sound;
    var begun := Opened(Tick(Tick(w)), request.externalMessageId);
    assert begun.thread.turn.Some? && CommitRefused(env, begun) == CommitRefused(env, Tick(Tick(w)));
    CommitFails(env, begun, NewMessage(User, request.content), []);
    var (r, live) := RunLive(env, w, request.externalMessageId, request.content, n);
    match live
    case StillRunning =>
    case LoopOk(turn) => PublishFrame(env, r, turn);
    case LoopErr(error) => FallbackFrame(env, r, request, error);
  }

  /** The state in which the loop of a heard request begins. */
  lemma HeardStarts(env: Env, w: Run, request: Request) returns (o: Origin)
    requires Between(env, w) && w.thread.turn.None? && GetsHeard(env, w)
    ensures var h := Heard(env, w, request);
            && TurnInvariant(o, env, h) && Sound(h)
            && h.thread.messages == w.thread.messages + [NewMessage(User, request.content)]
            && h.torn == w.torn && h.requests == w.requests && h.clock == w.clock + 4
  {
    hide Commit, TurnInvariant, Sound, SoundNext, SoleWriter, OriginOf, NewMessage;
    var ready, m := Tick(Tick(w)), NewMessage(User, request.content);
    assert AtRest(env, ready) by { RestsOf(env, ready, w); }
    assert Sound(ready) by { SoundFrame(w, ready); }
    var begun := Opened(ready, request.externalMessageId);
    o := OriginOf(ready, request.externalMessageId);
    OpeningStartsInvariant(env, ready, request.externalMessageId);
    SoundIsNext(begun);
    CommitPlain(o, env, begun, User, request.content, []);
    assert CommitRefused(env, begun) == CommitRefused(env, ready);
    CommitFails(env, begun, m, []);
    CommitOutcome(env, begun, m, []);
    CommitClock(env, begun, m, []);
    StageMessages(begun, m, []);
  }

  /**
   * A heard request whose history need not be compacted first sends what earlier turns left and the
   * user message: paired exactly when what they left was not torn.
   */
  lemma FirstRequest(env: Env, w: Run, request: Request, n: nat)
    requires Between(env, w) && w.thread.turn.None? && GetsHeard(env, w) && n > 0
    requires env.prepare(w.clock + 4) && env.prepare(w.clock + 6)
    requires !(env.compactEnabled && env.overBudget(w.clock + 5))
    ensures var (r, h) := (HandleRequest(env, w, request, n).0,
                           w.thread.messages + [NewMessage(User, request.content)]);
            && w.requests + [Sent(h, w.torn)] <= r.requests
            && (WellPaired(WireOf(h)) <==> !w.torn)
  {
    hide TurnInvariant, Iterate, Loop, Sound, HandleRequest, Heard, GetsHeard, NewMessage, WireOf, WellPaired;
    hide SoleWriter;
    var o := HeardStarts(env, w, request);
    var heard := Heard(env, w, request);
    RequestSends(env, w, request, n);
    LoopSendsFirst(o, env, heard, n);
    StandingOfSound(heard);
    StandingDecides(heard.torn, heard.thread.messages);
  }

  /**
   * A request whose last pass failed, as a batch does, leaves the history as what that pass added
   * says; the first request of the next turn is paired exactly if that is not torn.
   */
  lemma RequestAfterFailedPass(o: Origin, env: Env, w: Run, request: Request, n: nat, x: Run, next: Request, k: nat)
    requires Between(env, w) && w.thread.turn.None? && GetsHeard(env, w)
    requires TurnInvariant(o, env, x) && Sound(x) && Loop(env, Heard(env, w, request), n) == Iterate(env, x)
    requires env.prepare(x.clock) && RuntimeCompact(env, Tick(x)).error.None?
    requires AskModel(env, RuntimeCompact(env, Tick(x)).run).1.PassFailed?
    requires var r := HandleRequest(env, w, request, n).0;
             && r.thread.turn.None? && GetsHeard(env, r) && k > 0
             && env.prepare(r.clock + 4) && env.prepare(r.clock + 6)
             && !(env.compactEnabled && env.overBudget(r.clock + 5))
    ensures var (r, before) := (HandleRequest(env, w, request, n).0, RuntimeCompact(env, Tick(x)).run);
            var (after, h) := (AskModel(env, before).0, r.thread.messages + [NewMessage(User, next.content)]);
            && before.log <= after.log
            && r.requests + [Sent(h, r.torn)] <= HandleRequest(env, r, next, k).0.requests
            && (WellPaired(WireOf(h)) <==> !Torn(before.torn, after.log[|before.log|..]))
  {
    hide HandleRequest, Loop, Iterate, AskModel, RuntimeCompact, TurnInvariant, Sound, Heard, GetsHeard, Between;
    hide WireOf, WellPaired, NewMessage, Torn, CompletedTrace, SoleWriter, Reliable;
    var before := RuntimeCompact(env, Tick(x)).run;
    FrameKeeps(o, env, x, Tick(x));
    TickSound(x);
    RuntimeCompactCarries(o, env, Tick(x));
    PassTears(o, env, before);
    IterationSends(o, env, x);
    RequestSends(env, w, request, n);
    RequestKeeps(env, w, request, n);
    FirstRequest(env, HandleRequest(env, w, request, n).0, next, k);
  }

  // ---- A `compact` call in a batch -------------------------------------------------------------

  /** The run once the one call of a batch is announced. */
  function Announced(env: Env, w: Run, call: ToolCall): Run {
    Commit(env, w, ToolCallMessage(call), [CallEvent(call)]).run
  }

  lemma OneCallBatch(env: Env, w: Run, call: ToolCall)
    requires Commit(env, w, ToolCallMessage(call), [CallEvent(call)]).error.None?
    ensures var (b, ran) := (Batch(env, w, [call]), RunTool(env, Announced(env, w, call), call));
            && b.error == ran.error
            && b.run == ran.run.(intact := b.run.intact, torn := b.run.torn)
            && b.run.torn == Torn(w.torn, Gained(w, ran.run))
  {
    hide Commit, RunTool, Torn, Gained;
    assert [call][1..] == [];
    var said := Announced(env, w, call);
    assert CommitCalls(env, w, [call]) == Step(said, None);
    var ran := RunTool(env, said, call);
    assert RunTools(env, said, [call]) == if ran.error.Some? then ran else RunTools(env, ran.run, []);
  }

  /**
   * A batch of one `compact` call that rewrites the history tears it exactly when the hook after the
   * compaction succeeds, so that a result is appended; then no request can be sent until the next
   * rewrite. When the hook fails the batch fails, and what it leaves can be sent.
   */
  lemma CompactCallDecides(o: Origin, env: Env, w: Run, call: ToolCall, m: Message)
    requires TurnInvariant(o, env, w) && Ready(w.thread.messages) && Plain(m) && !CommitRefused(env, w)
    requires Rewrites(env, Announced(env, w, call), call)
    ensures var (b, answered) := (Batch(env, w, [call]), env.hook(Announced(env, w, call).clock + 3));
            && (b.run.torn <==> answered)
            && (answered ==> Hopeless(b.run.thread.messages))
            && (!answered ==> b.error.Some? && Ready(b.run.thread.messages))
            && (WellPaired(WireOf(b.run.thread.messages + [m])) <==> !answered)
  {
    hide TurnInvariant, Ready, Plain, Commit, RunTool, Batch, WireOf, WellPaired, Grows, ToolsLog, Torn, Hopeless;
    hide Rewrites, GetsAnswer, HistoryOf, LastRewrite, SinceRewrite, CommitRefused, Systems, SummaryRoles;
    hide Serializable;
    OpenTurns(o, env, w);
    CommitFails(env, w, ToolCallMessage(call), [CallEvent(call)]);
    var said := Announced(env, w, call);
    CommitKeeps(o, env, w, ToolCallMessage(call), [CallEvent(call)]);
    CommitGrows(o, env, w, ToolCallMessage(call), [CallEvent(call)]);
    OneCallBatch(env, w, call);
    var added := RunToolGrows(o, env, said, call);
    var ran, b := RunTool(env, said, call).run, Batch(env, w, [call]).run;
    var gained := CallsLog([call]) + added;
    assert CallsLog([call]) == [Appended(ToolCallMessage(call))];
    GrowsThen(w, said, ran, CallsLog([call]), added);
    GrowsFlags(w, ran, b, gained);
    HookAfterRewrite(env, said, call);
    BatchHistory(w.torn, w.thread.messages, [call], [call], added);
    RewrittenStands(w.thread.messages, LastRewrite(added).value, SinceRewrite(added));
    PlainKeepsStanding(b.torn, b.thread.messages, m);
    StandingDecides(b.torn, b.thread.messages + [m]);
  }

  lemma GrowsFlags(w: Run, w': Run, flagged: Run, added: seq<LogEntry>)
    requires Grows(w, w', added) && flagged == w'.(intact := flagged.intact, torn := flagged.torn)
    ensures Grows(w, flagged, added) && Gained(w, w') == added
    ensures flagged.thread.messages == HistoryOf(w.thread.messages, added)
  {
  }

  lemma HookAfterRewrite(env: Env, w: Run, call: ToolCall)
    requires Rewrites(env, w, call)
    ensures GetsAnswer(env, w, call) <==> env.hook(w.clock + 3)
  {
  }

  // ---- Such a call in an environment of its own --------------------------------------------------

  const COMPACT_CALL := ToolCall("call-1", "compact", "{}")

  /**
   * A reliable environment whose model asks for a compaction, whose summarizer works, and whose hooks
   * succeed at every step but one.
   */
  function CompactingEnv(failingHook: Option<nat>): Env {
    Env(true, k => Quiet, k => true, k => failingHook != Some(k), k => true, k => false,
        k => ModelReply(None, [COMPACT_CALL]), k => ToolOutcome("", false, []), k => Summary("so far"),
            k => Prompts([]))
  }

  /** A thread that has heard one message, with its next turn just opened. */
  function Asked(): Run {
    Opened(Greeted(), None)
  }

  function Greeted(): Run {
    var thread := EMPTY_THREAD.(messages := [NewMessage(User, "hi")]);
    Run(thread, StoreCell(0, None, map[]), [], true, [], [], [], 0, 0, true, false, 0)
  }

  lemma AskedStarts(failingHook: Option<nat>) returns (o: Origin)
    ensures TurnInvariant(o, CompactingEnv(failingHook), Asked()) && Sound(Asked()) && Ready(Asked().thread.messages)
  {
    hide TurnInvariant, Ready, WireOf, WellPaired, Hopeless;
    o := OriginOf(Greeted(), None);
    PlainIsReady(Asked().thread.messages);
    StandingOfReady(Asked().thread.messages);
    OpeningStartsInvariant(CompactingEnv(failingHook), Greeted(), None);
  }

  /** The `compact` call of that environment rewrites the history, from any state with an open turn. */
  lemma CompactingRewrites(o: Origin, failingHook: Option<nat>, w: Run)
    requires var env := CompactingEnv(failingHook);
             && TurnInvariant(o, env, w) && w.thread.revision == w.store.revision
             && (failingHook.Some? ==> failingHook.value == w.clock + 5)
    ensures var env := CompactingEnv(failingHook);
            && !CommitRefused(env, w)
            && Announced(env, w, COMPACT_CALL).clock == w.clock + 2
            && Rewrites(env, Announced(env, w, COMPACT_CALL), COMPACT_CALL)
  {
    hide TurnInvariant, Commit, Compact, NonSystem;
    var env, m := CompactingEnv(failingHook), ToolCallMessage(COMPACT_CALL);
    OpenTurns(o, env, w);
    CommitFails(env, w, m, [CallEvent(COMPACT_CALL)]);
    CommitClock(env, w, m, [CallEvent(COMPACT_CALL)]);
    CommitKeeps(o, env, w, m, [CallEvent(COMPACT_CALL)]);
    var said := Announced(env, w, COMPACT_CALL);
    OpenTurns(o, env, said);
    NonSystemLast(w.thread.messages, m);
  }

  /**
   * The same `compact` call with working hooks leaves a history that cannot be sent, whatever follows,
   * and with a hook that fails right after the rewrite leaves one that can.
   */
  lemma CompactCallWitness()
    ensures var next := NewMessage(User, "next");
            && Hopeless(Batch(CompactingEnv(None), Asked(), [COMPACT_CALL]).run.thread.messages)
            && WellPaired(WireOf(Batch(CompactingEnv(Some(5)), Asked(), [COMPACT_CALL]).run.thread.messages + [next]))
  {
    hide TurnInvariant, Ready, Batch, WireOf, WellPaired, Hopeless, Announced, Rewrites, Sound, CommitRefused;
    var next := NewMessage(User, "next");
    assert Plain(next) by { UserIsPlain("next"); }
    var o := AskedStarts(None);
    CompactingRewrites(o, None, Asked());
    CompactCallDecides(o, CompactingEnv(None), Asked(), COMPACT_CALL, next);
    var p := AskedStarts(Some(5));
    CompactingRewrites(p, Some(5), Asked());
    CompactCallDecides(p, CompactingEnv(Some(5)), Asked(), COMPACT_CALL, next);
  }

  lemma AnsweredRuns(o: Origin, env: Env, w: Run, call: ToolCall)
    requires TurnInvariant(o, env, w) && Reliable(env) && GetsAnswer(env, w, call)
    ensures RunTool(env, w, call).error.None?
  {
    hide TurnInvariant, ModelCompact, CallTool, Commit, Reliable, OutcomeHook;
    var ticked := Tick(w);
    OpenTurns(o, env, w);
    OutcomeExactly(env, w, call);
    FrameKeeps(o, env, w, ticked);
    var called := if call.name == "compact" then ModelCompact(env, ticked, call) else CallTool(env, ticked, call);
    if call.name == "compact" {
      ModelCompactKeeps(o, env, ticked, call);
    } else {
      CallToolKeeps(o, env, ticked, call);
    }
    var outcome := called.result.value;
    CommitKeeps(o, env, called.run, ToolResultMessage(call, outcome.content, outcome.isError),
                [ResultEvent(call, outcome.content, outcome.isError)]);
  }

  /** A batch of that call runs to its end there, and so tears the history. */
  lemma CompactingBatch(o: Origin, w: Run)
    requires TurnInvariant(o, CompactingEnv(None), w) && Ready(w.thread.messages)
    requires w.thread.revision == w.store.revision
    ensures var b := Batch(CompactingEnv(None), w, [COMPACT_CALL]);
            b.error.None? && b.run.torn && b.run.requests == w.requests
  {
    hide TurnInvariant, Ready, Hopeless, Batch, RunTool, Rewrites, GetsAnswer, Announced, CommitRefused, Commit;
    hide WellPaired, WireOf;
    var env := CompactingEnv(None);
    CompactingRewrites(o, None, w);
    assert Plain(NewMessage(User, "")) by { UserIsPlain(""); }
    CompactCallDecides(o, env, w, COMPACT_CALL, NewMessage(User, ""));
    OpenTurns(o, env, w);
    CommitKeeps(o, env, w, ToolCallMessage(COMPACT_CALL), [CallEvent(COMPACT_CALL)]);
    var said := Announced(env, w, COMPACT_CALL);
    AnnouncedIs(env, w, COMPACT_CALL);
    HookAfterRewrite(env, said, COMPACT_CALL);
    AnsweredRuns(o, env, said, COMPACT_CALL);
    OneCallBatch(env, w, COMPACT_CALL);
    BatchKeeps(o, env, w, [COMPACT_CALL]);
  }

  /** So does one iteration of the loop there. */
  lemma CompactingIteration(o: Origin, w: Run)
    requires var env := CompactingEnv(None);
             TurnInvariant(o, env, w) && Sound(w) && Ready(w.thread.messages) && w.thread.revision == w.store.revision
    ensures var r := Iterate(CompactingEnv(None), w);
            && r.1.Again? && r.0.torn
            && r.0.requests == w.requests + [Sent(w.thread.messages, w.torn)]
  {
    hide TurnInvariant, Sound, Ready, Batch, NonSystem, Compact;
    var env := CompactingEnv(None);
    var asked := Tick(Tick(w)).(requests := w.requests + [Sent(w.thread.messages, w.torn)]);
    var told := Tick(Tick(asked));
    FrameKeeps(o, env, w, told);
    CompactingBatch(o, told);
  }

  lemma AnnouncedIs(env: Env, w: Run, call: ToolCall)
    ensures Announced(env, w, call) == Commit(env, w, ToolCallMessage(call), [CallEvent(call)]).run
  {
    hide Commit;
  }

  /** In two iterations of the loop there the second request cannot be paired. */
  lemma CompactLoopWitness()
    ensures var sent := Loop(CompactingEnv(None), Asked(), 2).0.requests;
            |sent| >= 2 && WellPaired(WireOf(sent[0].messages)) && !WellPaired(WireOf(sent[1].messages))
  {
    hide TurnInvariant, Sound, Ready, Iterate, Loop, WellPaired, WireOf, NonSystem;
    var env := CompactingEnv(None);
    var o := AskedStarts(None);
    assert Asked().requests == [] && !Asked().torn && Asked().thread.revision == Asked().store.revision;
    CompactingIteration(o, Asked());
    IterateCarries(o, env, Asked());
    var once := Iterate(env, Asked()).0;
    LoopOnce(env, Asked(), 2);
    LoopSendsFirst(o, env, once, 1);
    ReadyIsPaired(Asked().thread.messages);
    StandingOfSound(once);
    StandingDecides(once.torn, once.thread.messages);
  }
}
