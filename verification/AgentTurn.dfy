/** What every step of one agent turn keeps, whatever the environment answers. */
module AgentTurn {
  import opened Wrappers
  import opened Text
  import opened ChatModel
  import opened ThreadAggregate
  import opened AgentLoop

  /** Where a turn started: the history, revision and counters just before its first commit. */
  datatype Origin = Origin(
    messages: seq<Message>,
    revision: nat,
    turnId: nat,
    externalMessageId: Option<string>,
    emitted: seq<Emission>,
    saves: nat,
    conflicts: nat,
    dedup: map<string, nat>)

  /** The worker is the only one who saves this thread. */
  ghost predicate SoleWriter(env: Env) {
    forall k: nat :: !env.save(k).ForeignSave?
  }

  /** No other writer, no store failure, and the event channel stays open. */
  ghost predicate Reliable(env: Env) {
    && (forall k: nat :: env.save(k) == Quiet)
    && (forall k: nat :: env.send(k))
  }

  /** No other writer, and no store failure; the event channel may still close. */
  ghost predicate StoreWorks(env: Env) {
    forall k: nat :: env.save(k) == Quiet
  }

  /** The event channel stays open. */
  ghost predicate SendsSucceed(env: Env) {
    forall k: nat :: env.send(k)
  }

  // ---- The history behind the log --------------------------------------------------------------

  /**
   * The history that a log produces: the initial one, or its system messages and the last summary, then
   * what came after.
   */
  function HistoryOf(initial: seq<Message>, log: seq<LogEntry>): seq<Message> {
    var rewrite := LastRewrite(log);
    (if rewrite.None? then initial else Systems(initial) + rewrite.value) + SinceRewrite(log)
  }

  /** How many messages a log appends. */
  function Appends(log: seq<LogEntry>): nat {
    if log == [] then 0 else Appends(log[..|log| - 1]) + (if log[|log| - 1].Appended? then 1 else 0)
  }

  lemma AppendsSnoc(log: seq<LogEntry>, entry: LogEntry)
    ensures Appends(log + [entry]) == Appends(log) + (if entry.Appended? then 1 else 0)
  {
    assert (log + [entry])[..|log|] == log;
  }

  predicate NoSystem(messages: seq<Message>) {
    forall i | 0 <= i < |messages| :: messages[i].role != System
  }

  /** Nothing in the log, appended or put in by a rewrite, is a system message. */
  predicate LogWithoutSystem(log: seq<LogEntry>) {
    forall i | 0 <= i < |log| ::
      if log[i].Appended? then log[i].message.role != System else NoSystem(log[i].replacement)
  }

  lemma {:induction false} SystemsAppend(a: seq<Message>, b: seq<Message>)
    ensures Systems(a + b) == Systems(a) + Systems(b)
  {
    if a == [] {
      assert a + b == b;
    } else {
      assert (a + b)[1..] == a[1..] + b;
      SystemsAppend(a[1..], b);
    }
  }

  lemma {:induction false} SystemsOfNone(messages: seq<Message>)
    requires NoSystem(messages)
    ensures Systems(messages) == []
  {
    if messages != [] {
      SystemsOfNone(messages[1..]);
    }
  }

  lemma {:induction false} SystemsIdempotent(messages: seq<Message>)
    ensures Systems(Systems(messages)) == Systems(messages)
  {
    if messages != [] {
      var head := if messages[0].role == System then [messages[0]] else [];
      SystemsIdempotent(messages[1..]);
      SystemsAppend(head, Systems(messages[1..]));
      assert Systems(head) == head;
    }
  }

  lemma {:induction false} LogParts(log: seq<LogEntry>)
    requires LogWithoutSystem(log)
    ensures NoSystem(SinceRewrite(log))
    ensures LastRewrite(log).Some? ==> NoSystem(LastRewrite(log).value)
  {
    if log != [] {
      LogParts(log[..|log| - 1]);
    }
  }

  /** System messages are never lost, added or reordered. */
  lemma SystemsSurvive(initial: seq<Message>, log: seq<LogEntry>)
    requires LogWithoutSystem(log)
    ensures Systems(HistoryOf(initial, log)) == Systems(initial)
  {
    hide Systems, SinceRewrite, LastRewrite, NoSystem;
    LogParts(log);
    var rewrite, since := LastRewrite(log), SinceRewrite(log);
    SystemsOfNone(since);
    if rewrite.None? {
      SystemsAppend(initial, since);
    } else {
      SystemsAppend(Systems(initial) + rewrite.value, since);
      SystemsAppend(Systems(initial), rewrite.value);
      SystemsOfNone(rewrite.value);
      SystemsIdempotent(initial);
    }
  }

  lemma LogSnoc(initial: seq<Message>, log: seq<LogEntry>, entry: LogEntry)
    requires LogWithoutSystem(log)
    requires if entry.Appended? then entry.message.role != System else NoSystem(entry.replacement)
    ensures LogWithoutSystem(log + [entry])
    ensures entry.Appended? ==> HistoryOf(initial, log + [entry]) == HistoryOf(initial, log) + [entry.message]
    ensures entry.Rewritten? ==>
              HistoryOf(initial, log + [entry]) == Systems(HistoryOf(initial, log)) + entry.replacement
  {
    var longer := log + [entry];
    assert longer[..|longer| - 1] == log;
    if entry.Rewritten? {
      SystemsSurvive(initial, log);
    }
  }

  // ---- Events ----------------------------------------------------------------------------------

  /** The turn events that leave the process: all but the compaction notices. */
  function Visible(events: seq<TurnEvent>): seq<TurnEvent> {
    if events == [] then []
    else (if events[0].kind != CompactEvent then [events[0]] else []) + Visible(events[1..])
  }

  lemma {:induction false} VisibleAppend(a: seq<TurnEvent>, b: seq<TurnEvent>)
    ensures Visible(a + b) == Visible(a) + Visible(b)
  {
    if a == [] {
      assert a + b == b;
    } else {
      assert (a + b)[1..] == a[1..] + b;
      VisibleAppend(a[1..], b);
    }
  }

  function EventsOf(dispatches: seq<DispatchEvent>): (events: seq<TurnEvent>)
    ensures |events| == |dispatches|
    ensures forall i | 0 <= i < |events| :: events[i] == dispatches[i].event
  {
    seq(|dispatches|, i requires 0 <= i < |dispatches| => dispatches[i].event)
  }

  /** Exactly the first of the dispatched events replies to the message that started the request. */
  predicate FirstReplies(dispatches: seq<DispatchEvent>) {
    forall i | 0 <= i < |dispatches| :: dispatches[i].replyToSource <==> i == 0
  }

  lemma {:induction false} DispatchesAreEvents(events: seq<TurnEvent>, replyToSource: bool)
    ensures EventsOf(Dispatches(events, replyToSource)) == events
    ensures forall i | 0 <= i < |events| :: Dispatches(events, replyToSource)[i].replyToSource
              <==> (replyToSource && i == 0)
  {
    if events != [] {
      DispatchesAreEvents(events[1..], false);
      var rest := Dispatches(events[1..], false);
      assert |rest| == |EventsOf(rest)| == |events| - 1;
      var all := Dispatches(events, replyToSource);
      assert all[1..] == rest;
      forall i | 0 <= i < |events|
        ensures i < |all| && all[i].event == events[i] && (all[i].replyToSource <==> (replyToSource && i == 0))
      {
        if i > 0 {
          assert all[i] == rest[i - 1];
          assert EventsOf(rest)[i - 1] == events[1..][i - 1];
        }
      }
    }
  }

  /** The dispatches of the committed messages among the emitted events. */
  function Published(emitted: seq<Emission>): seq<DispatchEvent> {
    if emitted == [] then []
    else
      var last := emitted[|emitted| - 1].event;
      Published(emitted[..|emitted| - 1]) + (if last.MessageCommitted? then last.dispatch else [])
  }

  lemma PublishedSnoc(emitted: seq<Emission>, e: Emission)
    ensures Published(emitted + [e])
         == Published(emitted) + (if e.event.MessageCommitted? then e.event.dispatch else [])
  {
    var longer := emitted + [e];
    assert longer[..|longer| - 1] == emitted;
  }

  // ---- The turn invariant ------------------------------------------------------------------------

  predicate TurnOpen(o: Origin, w: Run) {
    && w.thread.turn.Some?
    && w.thread.turn.value.turnId == o.turnId
    && w.thread.turn.value.externalMessageId == o.externalMessageId
    && PendingInvariant(w.thread)
  }

  /** The turn's visible events are the dispatched ones, in order, and the first one alone replies. */
  predicate Aligned(w: Run)
    requires w.thread.turn.Some?
  {
    && Visible(w.thread.turn.value.events) == EventsOf(w.dispatched)
    && (w.replyToSource <==> w.dispatched == [])
    && FirstReplies(w.dispatched)
  }

  predicate FollowsLog(o: Origin, w: Run) {
    && LogWithoutSystem(w.log)
    && w.thread.messages == HistoryOf(o.messages, w.log)
  }

  /** A committed message, as emitted, is already the last message of the stored snapshot. */
  predicate AlreadyStored(e: Emission)
    requires e.event.MessageCommitted?
  {
    && e.store.snapshot.Some?
    && var stored := e.store.snapshot.value;
       && stored.revision == e.store.revision
       && stored.messages != []
       && stored.messages[|stored.messages| - 1] == e.event.message
  }

  /**
   * What the turn has emitted so far: committed messages of this turn only, each already stored, and no
   * dedup record yet.
   */
  predicate OnlyCommits(o: Origin, w: Run) {
    && w.store.dedup == o.dedup
    && |o.emitted| <= |w.emitted|
    && w.emitted[..|o.emitted|] == o.emitted
    && forall i | |o.emitted| <= i < |w.emitted| ::
         w.emitted[i].event.MessageCommitted? && w.emitted[i].event.turnId == o.turnId && AlreadyStored(w.emitted[i])
         && w.emitted[i].store.dedup == o.dedup
  }

  /** The thread follows the store, one revision per save of this turn and no conflict. */
  predicate InStep(o: Origin, w: Run) {
    && o.saves <= w.saves
    && w.conflicts == o.conflicts
    && w.thread.revision == w.store.revision == o.revision + (w.saves - o.saves)
  }

  /** One event per save of this turn. */
  predicate OneEventPerSave(o: Origin, w: Run) {
    && |o.emitted| <= |w.emitted|
    && o.saves <= w.saves
    && w.saves - o.saves == |w.emitted| - |o.emitted|
  }

  /** One save per message that this turn appended. */
  predicate OneSavePerAppend(o: Origin, w: Run) {
    o.saves <= w.saves && w.saves - o.saves == Appends(w.log)
  }

  /** What was dispatched is what was published. */
  predicate AllPublished(o: Origin, w: Run) {
    && |o.emitted| <= |w.emitted|
    && Published(w.emitted[|o.emitted|..]) == w.dispatched
  }

  ghost predicate TurnInvariant(o: Origin, env: Env, w: Run) {
    && TurnOpen(o, w)
    && Aligned(w)
    && FollowsLog(o, w)
    && OnlyCommits(o, w)
    && (SoleWriter(env) ==> InStep(o, w))
    && (SendsSucceed(env) ==> OneEventPerSave(o, w))
    && (StoreWorks(env) ==> OneSavePerAppend(o, w))
    && (Reliable(env) ==> AllPublished(o, w))
  }

  // ---- Committing keeps it -----------------------------------------------------------------------

  predicate NoCompact(events: seq<TurnEvent>) {
    forall i | 0 <= i < |events| :: events[i].kind != CompactEvent
  }

  lemma {:induction false} VisibleAll(events: seq<TurnEvent>)
    requires NoCompact(events)
    ensures Visible(events) == events
  {
    if events != [] {
      VisibleAll(events[1..]);
    }
  }

  lemma StageAligned(w: Run, message: Message, events: seq<TurnEvent>)
    requires w.thread.turn.Some? && Aligned(w) && NoCompact(events)
    ensures Aligned(Stage(w, message, events))
  {
    hide Visible, Dispatches;
    var dispatch := Dispatches(events, w.replyToSource);
    DispatchesAreEvents(events, w.replyToSource);
    assert |dispatch| == |EventsOf(dispatch)|;
    VisibleAppend(w.thread.turn.value.events, events);
    VisibleAll(events);
    assert EventsOf(w.dispatched + dispatch) == EventsOf(w.dispatched) + EventsOf(dispatch);
  }

  lemma SwapOutcome(w: Run, snapshot: ThreadState, record: Option<(string, nat)>)
    ensures var s := Swap(w, snapshot, record);
            && s.run == w.(store := s.run.store, saves := s.run.saves, conflicts := s.run.conflicts)
            && (s.result.Ok? <==> snapshot.revision == w.store.revision)
            && (s.result.Ok? ==>
                  && s.result.value == snapshot.(revision := s.run.store.revision)
                  && s.run.store.snapshot == Some(s.result.value)
                  && s.run.store.dedup == Bound(w.store.dedup, record)
                  && s.run.saves == w.saves + 1)
            && (s.result.Err? ==> s.run.saves == w.saves && s.run.store == w.store)
  {
    hide Bound;
  }

  /** A save touches the store and the clock alone, and succeeds only as one whole write. */
  lemma SaveOutcome(env: Env, w: Run, snapshot: ThreadState, record: Option<(string, nat)>)
    ensures var s := Save(env, w, snapshot, record);
            && s.run == w.(store := s.run.store, saves := s.run.saves, conflicts := s.run.conflicts,
                           clock := w.clock + 1)
            && (s.result.Ok? ==>
                  && s.result.value == snapshot.(revision := s.run.store.revision)
                  && s.run.store.snapshot == Some(s.result.value)
                  && s.run.store.dedup == Bound(w.store.dedup, record)
                  && s.run.saves == w.saves + 1)
            && (s.result.Err? ==> s.run.saves == w.saves && s.run.store.dedup == w.store.dedup)
            && (env.save(w.clock) == Quiet && snapshot.revision == w.store.revision ==> s.result.Ok?)
  {
    hide Bound, Swap;
    SwapOutcome(Tick(w), snapshot, record);
    if env.save(w.clock).ForeignSave? {
      var other, revision := env.save(w.clock).other, w.store.revision + 1;
      var moved := w.store.(revision := revision, snapshot := Some(other.(revision := revision)));
      SwapOutcome(Tick(w).(store := moved), snapshot, record);
    }
  }

  /** A sole writer's save cannot conflict while the copy it saves is the latest. */
  lemma SaveInStep(env: Env, w: Run, snapshot: ThreadState, record: Option<(string, nat)>)
    requires SoleWriter(env) && snapshot.revision == w.store.revision
    ensures var s := Save(env, w, snapshot, record);
            && w.saves <= s.run.saves
            && s.run.store.revision == w.store.revision + (s.run.saves - w.saves)
            && (s.result.Ok? <==> s.run.saves == w.saves + 1)
            && s.run.conflicts == w.conflicts
  {
    assert !env.save(w.clock).ForeignSave?;
  }

  /** The event that reports a committed message, over the store it was saved to. */
  function Committed(w: Run, message: Message, events: seq<TurnEvent>, store: StoreCell): Emission
    requires w.thread.turn.Some?
  {
    Emission(MessageCommitted(w.thread.turn.value.turnId, message, Dispatches(events, w.replyToSource)), store)
  }

  /** The outcome of one commit: the staged changes always stay, and the event goes out only after its save. */
  lemma CommitOutcome(env: Env, w: Run, message: Message, events: seq<TurnEvent>)
    requires w.thread.turn.Some?
    ensures var c, staged := Commit(env, w, message, events), Stage(w, message, events);
            && c.run.thread == staged.thread.(revision := c.run.thread.revision)
            && c.run.dispatched == staged.dispatched && c.run.replyToSource == staged.replyToSource
            && c.run.log == staged.log && c.run.requests == w.requests && c.run.intact == w.intact
            && c.run.torn == w.torn && c.run.store.dedup == w.store.dedup
            && (c.error.Some? ==> c.run.emitted == w.emitted)
            && (SendsSucceed(env) && c.error.Some? ==> c.run.saves == w.saves)
            && (c.error.None? ==>
                  && c.run.store.snapshot == Some(c.run.thread)
                  && c.run.store.revision == c.run.thread.revision
                  && c.run.saves == w.saves + 1
                  && c.run.emitted == w.emitted + [Committed(w, message, events, c.run.store)])
            && (StoreWorks(env) && w.thread.revision == w.store.revision ==> c.run.saves == w.saves + 1)
            && (Reliable(env) && w.thread.revision == w.store.revision ==> c.error.None?)
  {
    hide Dispatches, Stage, Save, Reliable, SendsSucceed, StoreWorks;
    var staged := Stage(w, message, events);
    StageFrame(w, message, events);
    SaveOutcome(env, staged, staged.thread, None);
    if SendsSucceed(env) {
      AnswersOfOpenChannel(env, w.clock + 1);
    }
    if StoreWorks(env) {
      AnswersOfStore(env, w.clock);
    }
    if Reliable(env) {
      AnswersOfReliable(env, w.clock);
      AnswersOfReliable(env, w.clock + 1);
    }
  }

  lemma AnswersOfReliable(env: Env, k: nat)
    requires Reliable(env)
    ensures env.save(k) == Quiet && env.send(k)
  {
  }

  lemma AnswersOfStore(env: Env, k: nat)
    requires StoreWorks(env)
    ensures env.save(k) == Quiet
  {
  }

  lemma AnswersOfOpenChannel(env: Env, k: nat)
    requires SendsSucceed(env)
    ensures env.send(k)
  {
  }

  lemma StageFrame(w: Run, message: Message, events: seq<TurnEvent>)
    requires w.thread.turn.Some?
    ensures var s := Stage(w, message, events);
            && s.store == w.store && s.emitted == w.emitted && s.requests == w.requests && s.saves == w.saves
            && s.conflicts == w.conflicts && s.intact == w.intact && s.torn == w.torn && s.clock == w.clock
            && s.thread.revision == w.thread.revision
  {
  }

  lemma CommitInStep(env: Env, w: Run, message: Message, events: seq<TurnEvent>)
    requires w.thread.turn.Some? && SoleWriter(env) && w.thread.revision == w.store.revision
    ensures var c := Commit(env, w, message, events);
            && w.saves <= c.run.saves
            && c.run.thread.revision == c.run.store.revision == w.store.revision + (c.run.saves - w.saves)
            && c.run.conflicts == w.conflicts
  {
    hide Dispatches, Stage, Save, SoleWriter;
    var staged := Stage(w, message, events);
    StageFrame(w, message, events);
    SaveOutcome(env, staged, staged.thread, None);
    SaveInStep(env, staged, staged.thread, None);
  }

  lemma ReliableIsSole(env: Env)
    ensures Reliable(env) ==> StoreWorks(env) && SendsSucceed(env)
    ensures StoreWorks(env) ==> SoleWriter(env)
  {
  }

  /** All that one commit does to a turn, by how it ends. */
  lemma CommitKeeps(o: Origin, env: Env, w: Run, message: Message, events: seq<TurnEvent>)
    requires TurnInvariant(o, env, w) && NoCompact(events) && message.role != System
    ensures var c := Commit(env, w, message, events);
            && TurnInvariant(o, env, c.run)
            && c.run.thread.messages == w.thread.messages + [message]
            && c.run.requests == w.requests && c.run.intact == w.intact && c.run.torn == w.torn
            && (Reliable(env) ==> c.error.None?)
            && |w.emitted| <= |c.run.emitted|
            && (c.error.None? ==> |w.emitted| < |c.run.emitted|)
            && (events != [] ==> c.run.dispatched != [])
  {
    hide Commit, Visible, Dispatches, EventsOf, HistoryOf;
    hide Published, LogWithoutSystem, Reliable, SendsSucceed, SoleWriter, StoreWorks, Appends;
    AppendsSnoc(w.log, Appended(message));
    StageAligned(w, message, events);
    LogSnoc(o.messages, w.log, Appended(message));
    CommitOutcome(env, w, message, events);
    ReliableIsSole(env);
    if SoleWriter(env) {
      CommitInStep(env, w, message, events);
    }
    var c := Commit(env, w, message, events);
    DispatchesAreEvents(events, w.replyToSource);
    assert |Dispatches(events, w.replyToSource)| == |EventsOf(Dispatches(events, w.replyToSource))|;
    if Reliable(env) {
      var e := c.run.emitted[|w.emitted|];
      PublishedSnoc(w.emitted[|o.emitted|..], e);
      assert c.run.emitted[|o.emitted|..] == w.emitted[|o.emitted|..] + [e];
    }
  }

  // ---- So does everything else a turn does -------------------------------------------------------

  /** The turn invariant still holds, nothing emitted is taken back, and a broken batch stays broken. */
  ghost predicate Keeps(o: Origin, env: Env, w: Run, w': Run) {
    && TurnInvariant(o, env, w')
    && |w.emitted| <= |w'.emitted|
    && (w'.intact ==> w.intact)
  }

  /** The clock, the recorded requests, the batch flags and the loaded toolsets do not matter to a turn. */
  lemma FrameKeeps(o: Origin, env: Env, w: Run, w': Run)
    requires TurnInvariant(o, env, w)
    requires w' == w.(clock := w'.clock, requests := w'.requests, intact := w'.intact, torn := w'.torn,
                      thread := w'.thread)
    requires w'.thread == w.thread.(toolsets := w'.thread.toolsets)
    requires w'.intact ==> w.intact
    ensures Keeps(o, env, w, w')
  {
    hide Visible, EventsOf, HistoryOf, Published, LogWithoutSystem, SoleWriter, SendsSucceed, Reliable;
    hide StoreWorks, Appends;
  }

  lemma RecordKeeps(o: Origin, env: Env, w: Run, call: ToolCall, isError: bool)
    requires TurnInvariant(o, env, w)
    ensures Keeps(o, env, w, RecordTool(w, call, isError))
  {
    hide Visible, EventsOf, HistoryOf, Published, LogWithoutSystem, SoleWriter, SendsSucceed, Reliable;
    hide StoreWorks, Appends;
  }

  lemma BufferKeeps(o: Origin, env: Env, w: Run, callId: Option<string>, text: string, isError: bool)
    requires TurnInvariant(o, env, w)
    ensures Keeps(o, env, w, BufferEvent(w, CompactTurnEvent(callId, text, isError)))
  {
    hide EventsOf, HistoryOf, Published, LogWithoutSystem, SoleWriter, SendsSucceed, Reliable;
    hide StoreWorks, Appends;
    VisibleAppend(w.thread.turn.value.events, [CompactTurnEvent(callId, text, isError)]);
    assert Visible([CompactTurnEvent(callId, text, isError)]) == [];
  }

  lemma RewriteKeeps(o: Origin, env: Env, w: Run, summary: string)
    requires TurnInvariant(o, env, w)
    ensures Keeps(o, env, w, Rewrite(w, CompactedMessages(summary)))
  {
    hide Visible, EventsOf, HistoryOf, Published, LogWithoutSystem, Systems, SoleWriter, SendsSucceed, Reliable;
    hide StoreWorks, Appends;
    LogSnoc(o.messages, w.log, Rewritten(CompactedMessages(summary)));
    AppendsSnoc(w.log, Rewritten(CompactedMessages(summary)));
  }

  /** The summary and its notice, put in by one compaction. */
  lemma SummaryKeeps(o: Origin, env: Env, w: Run, summary: string, callId: Option<string>, text: string)
    requires TurnInvariant(o, env, w)
    ensures Keeps(o, env, w, Rewrite(w, CompactedMessages(summary)))
    ensures Rewrite(w, CompactedMessages(summary)).thread.turn.Some?
    ensures Keeps(o, env, w, BufferEvent(Rewrite(w, CompactedMessages(summary)), CompactTurnEvent(callId, text, false)))
  {
    hide TurnInvariant, CompactedMessages, Rewrite;
    RewriteKeeps(o, env, w, summary);
    OpenTurns(o, env, Rewrite(w, CompactedMessages(summary)));
    BufferKeeps(o, env, Rewrite(w, CompactedMessages(summary)), callId, text, false);
  }

  lemma BufferFrame(w: Run, event: TurnEvent)
    requires w.thread.turn.Some?
    ensures BufferEvent(w, event).thread.messages == w.thread.messages
  {
  }

  lemma CompactFrame(env: Env, w: Run, callId: Option<string>)
    ensures var c := Compact(env, w, callId);
            && c.run.intact == w.intact && c.run.torn == w.torn && c.run.requests == w.requests
            && c.run.saves == w.saves && c.run.store == w.store && c.run.emitted == w.emitted
            && (c.result != Ok(true) ==> c.run.thread.messages == w.thread.messages)
  {
    hide NonSystem, ReplaceAfterCompaction, CompactedMessages, CompactedNote, Buffer;
    if w.thread.turn.Some? {
      BufferFrame(w, CompactTurnEvent(callId, NOTHING_TO_COMPACT, false));
    }
  }

  /** What stands in for a compacted history: the summary behind its prefix, and the request to go on. */
  predicate SummaryPair(r: seq<Message>, summary: string) {
    r == [Message(Assistant, "这是压缩后的上下文，请基于这些信息继续当前任务：\n" + summary, [], None),
          Message(User, "继续", [], None)]
  }

  /** Of `before` the system messages are left, and the summary that was given for the rest. */
  predicate Summarized(before: seq<Message>, after: seq<Message>, given: Summarizer) {
    var kept := Systems(before);
    given.Summary? && kept <= after && SummaryPair(after[|kept|..], given.text)
  }

  /** A compaction that reports a rewrite put in the summary that the summarizer gave at its step. */
  lemma CompactTells(env: Env, w: Run, callId: Option<string>)
    requires Compact(env, w, callId).result == Ok(true)
    ensures var c, given := Compact(env, w, callId).run, env.summarize(w.clock + 1);
            && Summarized(w.thread.messages, c.thread.messages, given)
            && c.log == w.log + [Rewritten(c.thread.messages[|Systems(w.thread.messages)|..])]
            && c.clock == w.clock + 2
  {
    hide NonSystem, Systems;
  }

  /** A compaction touches messages, buffered events and the log; it saves and sends nothing. */
  lemma CompactKeeps(o: Origin, env: Env, w: Run, callId: Option<string>)
    requires TurnInvariant(o, env, w)
    ensures var c := Compact(env, w, callId);
            && Keeps(o, env, w, c.run)
            && c.run.intact == w.intact && c.run.torn == w.torn && c.run.requests == w.requests
            && c.run.saves == w.saves && c.run.store == w.store && c.run.emitted == w.emitted
            && (if c.result == Ok(true) then
                  Summarized(w.thread.messages, c.run.thread.messages, env.summarize(w.clock + 1))
                else c.run.thread.messages == w.thread.messages)
  {
    hide TurnInvariant, NonSystem, Rewrite, BufferEvent, CompactedMessages, Summarized;
    CompactFrame(env, w, callId);
    if Compact(env, w, callId).result == Ok(true) {
      CompactTells(env, w, callId);
    }
    OpenTurns(o, env, w);
    var hooked := Tick(w);
    FrameKeeps(o, env, w, hooked);
    FrameKeeps(o, env, w, Tick(hooked));
    if w.thread.messages == [] {
      BufferKeeps(o, env, w, callId, NOTHING_TO_COMPACT, false);
    } else if env.summarize(hooked.clock).Summary? {
      SummaryKeeps(o, env, Tick(hooked), env.summarize(hooked.clock).text, callId,
                   CompactedNote(w.thread.messages));
    }
  }

  lemma OpenTurns(o: Origin, env: Env, w: Run)
    requires TurnInvariant(o, env, w)
    ensures w.thread.turn.Some?
  {
  }

  lemma CompactFailedKeeps(o: Origin, env: Env, w: Run, call: ToolCall, message: string)
    requires TurnInvariant(o, env, w)
    ensures var c := CompactFailed(env, w, call, message);
            && Keeps(o, env, w, c.run)
            && c.run.intact == w.intact && c.run.requests == w.requests
            && c.run.thread.messages == w.thread.messages
  {
    hide TurnInvariant, Buffer, Record;
    OpenTurns(o, env, w);
    FrameKeeps(o, env, w, Tick(w));
    RecordKeeps(o, env, Tick(w), call, true);
    BufferKeeps(o, env, RecordTool(Tick(w), call, true), Some(call.id), FailedNote(message), true);
    RecordFrame(Tick(w), call, true);
    BufferFrame(RecordTool(Tick(w), call, true), CompactTurnEvent(Some(call.id), FailedNote(message), true));
  }

  lemma RecordFrame(w: Run, call: ToolCall, isError: bool)
    ensures RecordTool(w, call, isError).thread.messages == w.thread.messages
    ensures w.thread.turn.Some? ==> RecordTool(w, call, isError).thread.turn.Some?
  {
  }

  // ---- Tool batches --------------------------------------------------------------------------------

  lemma ModelCompactKeeps(o: Origin, env: Env, w: Run, call: ToolCall)
    requires TurnInvariant(o, env, w)
    ensures var c := ModelCompact(env, w, call);
            && Keeps(o, env, w, c.run)
            && c.run.requests == w.requests
            && (c.run.intact ==> c.run.thread.messages == w.thread.messages)
  {
    hide TurnInvariant, Compact, CompactFailed;
    if !env.compactEnabled {
      CompactFailedKeeps(o, env, w, call, "compact runtime is disabled");
    } else {
      CompactKeeps(o, env, w, Some(call.id));
      var compacted := Compact(env, w, Some(call.id));
      if compacted.result.Err? {
        CompactFailedKeeps(o, env, compacted.run, call, Describe(compacted.result.error));
      } else {
        var flagged := compacted.run.(intact := compacted.run.intact && !compacted.result.value);
        FrameKeeps(o, env, compacted.run, Tick(flagged));
        RecordKeeps(o, env, Tick(flagged), call, false);
        RecordFrame(Tick(flagged), call, false);
      }
    }
  }

  lemma CallToolKeeps(o: Origin, env: Env, w: Run, call: ToolCall)
    requires TurnInvariant(o, env, w)
    ensures var c := CallTool(env, w, call);
            && Keeps(o, env, w, c.run)
            && c.run.requests == w.requests && c.run.intact == w.intact
            && c.run.thread.messages == w.thread.messages
  {
    hide TurnInvariant;
    var outcome := env.tool(w.clock);
    var called := Tick(w).(thread := w.thread.(toolsets := outcome.toolsets));
    FrameKeeps(o, env, w, Tick(called));
    RecordKeeps(o, env, Tick(called), call, outcome.isError);
    RecordFrame(Tick(called), call, outcome.isError);
  }

  /** `m` is the tool result that answers `call`. */
  predicate Answers(m: Message, call: ToolCall) {
    m.role == ToolResult && m.toolCalls == [] && m.toolCallId == Some(call.id)
  }

  predicate AnswersAll(results: seq<Message>, calls: seq<ToolCall>) {
    |results| == |calls| && forall i | 0 <= i < |calls| :: Answers(results[i], calls[i])
  }

  /** One call ran to its end: one message was added, and it answers the call. */
  predicate AddsAnswer(before: seq<Message>, after: seq<Message>, call: ToolCall) {
    && |after| == |before| + 1
    && after[..|before|] == before
    && Answers(after[|before|], call)
  }

  predicate AddsAnswers(before: seq<Message>, after: seq<Message>, calls: seq<ToolCall>) {
    && |after| == |before| + |calls|
    && after[..|before|] == before
    && AnswersAll(after[|before|..], calls)
  }

  /** What a call is answered with, and whether as a failure, by what the environment says from its first hook on. */
  function OutcomeOf(env: Env, w: Run, call: ToolCall): (string, bool) {
    if call.name != "compact" then (env.tool(w.clock + 1).content, env.tool(w.clock + 1).isError)
    else if !env.compactEnabled then ("compact runtime is disabled", true)
    else if w.thread.messages == [] then ("compact skipped: no chat history was available to compact", false)
    else if !env.hook(w.clock + 1) then (Describe(HookError), true)
    else if NonSystem(w.thread.messages) == [] then
      ("compact skipped: no chat history was available to compact", false)
    else
      match env.summarize(w.clock + 2)
      case SummarizerFails(error) => (error, true)
      case Summary(_) =>
        ("compact completed: compacted " + Decimal(|NonSystem(w.thread.messages)|)
         + " messages from current chat history", false)
  }

  /** The message and the event that answer a call say what came of it, and whether that was a failure. */
  predicate ResultTells(m: Message, e: TurnEvent, call: ToolCall, outcome: (string, bool)) {
    && Answers(m, call)
    && m.content == (if outcome.1 then "Tool execution failed: " + outcome.0 else outcome.0)
    && e.kind == ToolResultEvent && e.toolCallId == Some(call.id) && e.isError == outcome.1
    && e.content == "[openjarvis][tool_result] " + Preview(m.content)
  }

  /** The last message of a history, and the last event handed to the commit hook, are the result of a call. */
  predicate EndsInResult(w: Run, call: ToolCall, outcome: (string, bool)) {
    && w.thread.messages != [] && w.dispatched != []
    && ResultTells(w.thread.messages[|w.thread.messages| - 1], w.dispatched[|w.dispatched| - 1].event, call, outcome)
  }

  /** How a compaction ends, by what the environment says from its hook on. */
  lemma CompactEnds(env: Env, w: Run, callId: Option<string>)
    requires w.thread.turn.Some?
    ensures Compact(env, w, callId).run.thread.turn.Some?
    ensures Compact(env, w, callId).run.thread.toolsets == w.thread.toolsets
    ensures Compact(env, w, callId).result
         == if w.thread.messages == [] then Ok(false)
            else if !env.hook(w.clock) then Err(HookError)
            else if NonSystem(w.thread.messages) == [] then Ok(false)
            else match env.summarize(w.clock + 1)
                 case SummarizerFails(error) => Err(SummaryError(error))
                 case Summary(_) => Ok(true)
  {
    hide NonSystem, Systems, CompactedMessages;
  }

  lemma CompactCallTells(env: Env, w: Run, call: ToolCall)
    requires w.thread.turn.Some? && call.name == "compact"
    ensures ModelCompact(env, Tick(w), call).run.thread.turn.Some?
    ensures ModelCompact(env, Tick(w), call).run.thread.toolsets == w.thread.toolsets
    ensures var called := ModelCompact(env, Tick(w), call).result;
            called.Ok? ==> (called.value.content, called.value.isError) == OutcomeOf(env, w, call)
  {
    hide NonSystem, Compact, Decimal, FailedNote;
    CompactEnds(env, Tick(w), Some(call.id));
  }

  lemma CommitTells(env: Env, w: Run, m: Message, e: TurnEvent)
    requires w.thread.turn.Some?
    ensures var c := Commit(env, w, m, [e]).run;
            && c.thread.messages == w.thread.messages + [m]
            && c.log == w.log + [Appended(m)]
            && c.dispatched == w.dispatched + [DispatchEvent(e, w.replyToSource)]
            && c.thread.toolsets == w.thread.toolsets
  {
    hide Commit;
    CommitOutcome(env, w, m, [e]);
    assert Dispatches([e], w.replyToSource) == [DispatchEvent(e, w.replyToSource)];
  }

  lemma ToolCallTells(env: Env, w: Run, call: ToolCall)
    requires w.thread.turn.Some? && call.name != "compact"
    ensures var called := CallTool(env, Tick(w), call);
            && called.run.thread.turn.Some?
            && called.run.thread.toolsets == env.tool(w.clock + 1).toolsets
            && (called.result.Ok? ==>
                  (called.result.value.content, called.result.value.isError) == OutcomeOf(env, w, call))
  {
  }

  /** The toolsets loaded after a call: those that its tool left, and for a compaction the same as before. */
  function LoadedAfter(env: Env, w: Run, call: ToolCall): seq<string> {
    if call.name == "compact" then w.thread.toolsets else env.tool(w.clock + 1).toolsets
  }

  /** A call that ran to its end is answered with what came of it, a failure marked as one. */
  lemma RunToolTells(env: Env, w: Run, call: ToolCall)
    requires w.thread.turn.Some? && RunTool(env, w, call).error.None?
    ensures EndsInResult(RunTool(env, w, call).run, call, OutcomeOf(env, w, call))
    ensures RunTool(env, w, call).run.thread.toolsets == LoadedAfter(env, w, call)
  {
    hide ModelCompact, CallTool, Commit, OutcomeOf, Preview;
    if call.name == "compact" {
      CompactCallTells(env, w, call);
    } else {
      ToolCallTells(env, w, call);
    }
    var called := if call.name == "compact" then ModelCompact(env, Tick(w), call) else CallTool(env, Tick(w), call);
    var outcome := called.result.value;
    CommitTells(env, called.run, ToolResultMessage(call, outcome.content, outcome.isError),
                ResultEvent(call, outcome.content, outcome.isError));
  }

  lemma RunToolKeeps(o: Origin, env: Env, w: Run, call: ToolCall)
    requires TurnInvariant(o, env, w)
    ensures var c := RunTool(env, w, call);
            && Keeps(o, env, w, c.run)
            && c.run.requests == w.requests
            && (c.error.None? && c.run.intact ==> AddsAnswer(w.thread.messages, c.run.thread.messages, call))
            && (c.error.None? ==>
                  EndsInResult(c.run, call, OutcomeOf(env, w, call))
                  && c.run.thread.toolsets == LoadedAfter(env, w, call))
  {
    hide TurnInvariant, ModelCompact, CallTool, Commit, EndsInResult, OutcomeOf, LoadedAfter;
    OpenTurns(o, env, w);
    if RunTool(env, w, call).error.None? {
      RunToolTells(env, w, call);
    }
    var ticked := Tick(w);
    FrameKeeps(o, env, w, ticked);
    var called := if call.name == "compact" then ModelCompact(env, ticked, call) else CallTool(env, ticked, call);
    if call.name == "compact" {
      ModelCompactKeeps(o, env, ticked, call);
    } else {
      CallToolKeeps(o, env, ticked, call);
    }
    if called.result.Ok? {
      var outcome := called.result.value;
      CommitKeeps(o, env, called.run, ToolResultMessage(call, outcome.content, outcome.isError),
                  [ResultEvent(call, outcome.content, outcome.isError)]);
    }
  }

  lemma AddsAnswersCons(before: seq<Message>, middle: seq<Message>, after: seq<Message>, calls: seq<ToolCall>)
    requires calls != [] && AddsAnswer(before, middle, calls[0]) && AddsAnswers(middle, after, calls[1..])
    ensures AddsAnswers(before, after, calls)
  {
    assert after[|before|] == middle[|before|];
    assert forall i | 1 <= i < |calls| ::
        after[|before|..][i] == after[|middle|..][i - 1] && calls[i] == calls[1..][i - 1];
    assert after[..|before|] == middle[..|before|];
  }

  lemma {:induction false} RunToolsKeeps(o: Origin, env: Env, w: Run, calls: seq<ToolCall>)
    requires TurnInvariant(o, env, w)
    ensures var c := RunTools(env, w, calls);
            && Keeps(o, env, w, c.run)
            && c.run.requests == w.requests
            && (c.error.None? && c.run.intact ==> AddsAnswers(w.thread.messages, c.run.thread.messages, calls))
    decreases |calls|
  {
    hide TurnInvariant, RunTool, AddsAnswer;
    if calls != [] {
      RunToolKeeps(o, env, w, calls[0]);
      var first := RunTool(env, w, calls[0]);
      if first.error.None? {
        RunToolsKeeps(o, env, first.run, calls[1..]);
        var c := RunTools(env, w, calls);
        if c.error.None? && c.run.intact {
          AddsAnswersCons(w.thread.messages, first.run.thread.messages, c.run.thread.messages, calls);
        }
      }
    }
  }

  function CallMessages(calls: seq<ToolCall>): seq<Message> {
    if calls == [] then [] else [ToolCallMessage(calls[0])] + CallMessages(calls[1..])
  }

  lemma CallIsVisible(call: ToolCall)
    ensures NoCompact([CallEvent(call)])
  {
    hide Preview;
  }

  lemma {:induction false} CommitCallsKeeps(o: Origin, env: Env, w: Run, calls: seq<ToolCall>)
    requires TurnInvariant(o, env, w)
    ensures var c := CommitCalls(env, w, calls);
            && Keeps(o, env, w, c.run)
            && c.run.requests == w.requests && c.run.intact == w.intact
            && (c.error.None? ==> c.run.thread.messages == w.thread.messages + CallMessages(calls))
            && (Reliable(env) ==> c.error.None?)
    decreases |calls|
  {
    hide TurnInvariant, Commit, Reliable, CallEvent, NoCompact;
    if calls == [] {
      assert w.thread.messages + [] == w.thread.messages;
    } else {
      CallIsVisible(calls[0]);
      CommitKeeps(o, env, w, ToolCallMessage(calls[0]), [CallEvent(calls[0])]);
      var first := Commit(env, w, ToolCallMessage(calls[0]), [CallEvent(calls[0])]);
      if first.error.None? {
        CommitCallsKeeps(o, env, first.run, calls[1..]);
        assert w.thread.messages + [ToolCallMessage(calls[0])] + CallMessages(calls[1..])
            == w.thread.messages + ([ToolCallMessage(calls[0])] + CallMessages(calls[1..]));
      }
    }
  }

  /** A batch that leaves the run intact added all its calls, then one answer to each, and nothing else. */
  predicate AddsBatch(before: seq<Message>, after: seq<Message>, calls: seq<ToolCall>) {
    AddsAnswers(before + CallMessages(calls), after, calls)
  }

  lemma BatchKeeps(o: Origin, env: Env, w: Run, calls: seq<ToolCall>)
    requires TurnInvariant(o, env, w)
    ensures var c := Batch(env, w, calls);
            && Keeps(o, env, w, c.run)
            && c.run.requests == w.requests
            && (c.run.intact ==> c.error.None? && AddsBatch(w.thread.messages, c.run.thread.messages, calls))
  {
    hide TurnInvariant, CommitCalls, RunTools, AddsAnswers, CallMessages;
    CommitCallsKeeps(o, env, w, calls);
    var announced := CommitCalls(env, w, calls);
    if announced.error.None? {
      RunToolsKeeps(o, env, announced.run, calls);
    }
    var ran := if announced.error.Some? then announced else RunTools(env, announced.run, calls);
    hide Torn, Gained;
    FrameKeeps(o, env, ran.run, Batch(env, w, calls).run);
  }
}
