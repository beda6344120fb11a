/** The channel router: at most one request in progress per thread, the rest queued in arrival order. */
module Router {
  import opened Wrappers

  datatype IncomingMessage = IncomingMessage(locator: string, externalMessageId: Option<string>, content: string)

  /**
   * What the session store, the dedup records and the command registry answer about one message. A
   * command `fails` when an error ends it before its reply is sent.
   */
  datatype Fate =
    | LookupFails
    | AlreadyProcessed
    | ForAgent
    | Command(idleOnly: bool, fails: bool, replies: bool)

  datatype Event = Arrives(message: IncomingMessage, fate: Fate) | RequestCompletes(locator: string) | WorkerStops

  /** One message bound for the agent worker. */
  datatype Dispatch = Dispatch(locator: string, message: IncomingMessage)

  /**
   * `sent` is what went into the worker's channel. `accepted`, `refused`, `answered` and `completed`
   * record what was taken in for the agent, what was turned away with an error, which commands the
   * router replied to, and what completed.
   */
  datatype RouterState = RouterState(
    pending: set<string>,
    queued: map<string, seq<IncomingMessage>>,
    seen: set<string>,
    sent: seq<Dispatch>,
    accepted: seq<Dispatch>,
    refused: seq<Dispatch>,
    answered: seq<Dispatch>,
    completed: seq<string>,
    channelOpen: bool)

  const STARTED := RouterState({}, map[], {}, [], [], [], [], [], true)

  function Queue(s: RouterState, locator: string): seq<IncomingMessage> {
    if locator in s.queued then s.queued[locator] else []
  }

  // ---- One event -----------------------------------------------------------------------------

  /** A message for the agent: sent if its thread is free and the channel open, queued if the thread is busy. */
  function Admit(s: RouterState, d: Dispatch): RouterState {
    if d.locator in s.pending then
      s.(queued := s.queued[d.locator := Queue(s, d.locator) + [d.message]], accepted := s.accepted + [d])
    else if s.channelOpen then
      s.(pending := s.pending + {d.locator}, sent := s.sent + [d], accepted := s.accepted + [d])
    else s.(refused := s.refused + [d])
  }

  function Remember(s: RouterState, dedup: bool, id: Option<string>): RouterState {
    if dedup && id.Some? then s.(seen := s.seen + {id.value}) else s
  }

  /** Whether a command stops at the router; one that it does not recognize goes to the agent. */
  predicate StopsAtRouter(s: RouterState, locator: string, fate: Fate) {
    fate.Command? && ((locator in s.pending && fate.idleOnly) || fate.fails || fate.replies)
  }

  /** The command got its reply. */
  predicate Replies(s: RouterState, locator: string, fate: Fate) {
    StopsAtRouter(s, locator, fate) && !fate.fails
  }

  /** `handle_incoming` */
  function Arrive(s: RouterState, dedup: bool, m: IncomingMessage, fate: Fate): RouterState {
    if dedup && m.externalMessageId.Some? && m.externalMessageId.value in s.seen then s
    else
      var known := Remember(s, dedup, m.externalMessageId);
      if fate.LookupFails? || (fate.AlreadyProcessed? && m.externalMessageId.Some?) then known
      else if StopsAtRouter(s, m.locator, fate) then
        if Replies(s, m.locator, fate) then known.(answered := known.answered + [Dispatch(m.locator, m)]) else known
      else Admit(known, Dispatch(m.locator, m))
  }

  /** A command that the router answers: it is executed, or it is for idle threads and its thread is busy. */
  predicate Answerable(s: RouterState, m: IncomingMessage, fate: Fate) {
    fate.Command? && !fate.fails && (fate.replies || (fate.idleOnly && m.locator in s.pending))
  }

  /** A message for the agent: no command, or one that the router does not recognize. */
  predicate Unrecognized(s: RouterState, m: IncomingMessage, fate: Fate) {
    || fate.ForAgent?
    || (fate.AlreadyProcessed? && m.externalMessageId.None?)
    || (fate.Command? && !fate.fails && !fate.replies && !(fate.idleOnly && m.locator in s.pending))
  }

  /**
   * What a delivery does that is not a known duplicate: an answerable command is answered and reaches nobody else; a
   * message for the agent is queued behind a busy thread, sent to a free one, or refused if the worker is gone; and
   * anything else is remembered at most.
   */
  lemma ArrivalDecides(s: RouterState, dedup: bool, m: IncomingMessage, fate: Fate)
    requires dedup && m.externalMessageId.Some? ==> m.externalMessageId.value !in s.seen
    ensures var t, d := Arrive(s, dedup, m, fate), Dispatch(m.locator, m);
            var remembered := s.(seen := if dedup && m.externalMessageId.Some?
                                         then s.seen + {m.externalMessageId.value} else s.seen);
            if Answerable(s, m, fate) then t == remembered.(answered := s.answered + [d])
            else if !Unrecognized(s, m, fate) then t == remembered
            else if m.locator !in s.pending && !s.channelOpen then t == remembered.(refused := s.refused + [d])
            else if m.locator !in s.pending then
              t == remembered.(pending := s.pending + {m.locator}, sent := s.sent + [d], accepted := s.accepted + [d])
            else
              && Queue(t, m.locator) == Queue(s, m.locator) + [m]
              && (forall l: string | l != m.locator :: Queue(t, l) == Queue(s, l))
              && t == remembered.(queued := t.queued, accepted := s.accepted + [d])
  {
  }

  /** `release_or_dispatch_next`: the next queued message takes over, or the thread becomes free. */
  function Complete(s: RouterState, locator: string): RouterState {
    var counted := s.(completed := s.completed + [locator]);
    var queue := Queue(s, locator);
    if queue == [] || !s.channelOpen then counted.(pending := s.pending - {locator})
    else
      counted.(sent := s.sent + [Dispatch(locator, queue[0])],
               queued := if |queue| == 1 then s.queued - {locator} else s.queued[locator := queue[1..]])
  }

  function Handle(s: RouterState, dedup: bool, event: Event): RouterState {
    match event
    case Arrives(m, fate) => Arrive(s, dedup, m, fate)
    case RequestCompletes(locator) => Complete(s, locator)
    case WorkerStops => s.(channelOpen := false)
  }

  function HandleAll(s: RouterState, dedup: bool, events: seq<Event>): RouterState
    decreases |events|
  {
    if events == [] then s else HandleAll(Handle(s, dedup, events[0]), dedup, events[1..])
  }

  // ---- Histories of one thread ---------------------------------------------------------------

  function For(ds: seq<Dispatch>, locator: string): seq<IncomingMessage> {
    if ds == [] then []
    else
      var last := ds[|ds| - 1];
      For(ds[..|ds| - 1], locator) + (if last.locator == locator then [last.message] else [])
  }

  function Completions(completed: seq<string>, locator: string): nat {
    if completed == [] then 0
    else Completions(completed[..|completed| - 1], locator) + (if completed[|completed| - 1] == locator then 1 else 0)
  }

  lemma ForSnoc(ds: seq<Dispatch>, d: Dispatch, locator: string)
    ensures For(ds + [d], locator) == For(ds, locator) + (if d.locator == locator then [d.message] else [])
  {
    assert (ds + [d])[..|ds|] == ds;
  }

  lemma CompletionsSnoc(completed: seq<string>, c: string, locator: string)
    ensures Completions(completed + [c], locator) == Completions(completed, locator) + (if c == locator then 1 else 0)
  {
    assert (completed + [c])[..|completed|] == completed;
  }

  /** Requests of one thread that were sent and have not completed. */
  function Outstanding(s: RouterState, locator: string): int {
    |For(s.sent, locator)| - Completions(s.completed, locator)
  }

  /** The worker completes a request only after it was sent. */
  predicate Honest(s: RouterState, dedup: bool, events: seq<Event>)
    decreases |events|
  {
    events == [] ||
    ((events[0].RequestCompletes? ==> Outstanding(s, events[0].locator) >= 1)
     && Honest(Handle(s, dedup, events[0]), dedup, events[1..]))
  }

  // ---- Nothing is lost, duplicated or reordered ------------------------------------------------

  /**
   * Per thread, what was accepted is what was sent and then what is queued; while the channel is open only
   * a busy thread queues.
   */
  ghost predicate Conserved(s: RouterState) {
    && (forall l: string :: For(s.accepted, l) == For(s.sent, l) + Queue(s, l))
    && (s.channelOpen ==> forall l: string :: Queue(s, l) != [] ==> l in s.pending)
  }

  lemma AppendSplit<T>(a: seq<T>, b: seq<T>, x: T)
    ensures a + (b + [x]) == a + b + [x]
    ensures b == [] ==> a + [x] + b == a + b + [x]
    ensures b != [] ==> a + [b[0]] + b[1..] == a + b
  {
  }

  lemma AdmitConserves(s: RouterState, d: Dispatch)
    requires Conserved(s)
    ensures Conserved(Admit(s, d))
  {
    hide For;
    var s' := Admit(s, d);
    forall l: string
      ensures For(s'.accepted, l) == For(s'.sent, l) + Queue(s', l)
    {
      assert For(s.accepted, l) == For(s.sent, l) + Queue(s, l);
      ForSnoc(s.accepted, d, l);
      ForSnoc(s.sent, d, l);
      AppendSplit(For(s.sent, l), Queue(s, l), d.message);
    }
  }

  lemma CompleteConserves(s: RouterState, locator: string)
    requires Conserved(s)
    ensures Conserved(Complete(s, locator))
  {
    hide For;
    var s', queue := Complete(s, locator), Queue(s, locator);
    if queue != [] && s.channelOpen {
      forall l: string
        ensures For(s'.accepted, l) == For(s'.sent, l) + Queue(s', l)
      {
        assert For(s.accepted, l) == For(s.sent, l) + Queue(s, l);
        ForSnoc(s.sent, Dispatch(locator, queue[0]), l);
        AppendSplit(For(s.sent, l), queue, queue[0]);
      }
    }
  }

  lemma HandleConserves(s: RouterState, dedup: bool, event: Event)
    requires Conserved(s)
    ensures Conserved(Handle(s, dedup, event))
  {
    hide For, Admit, Complete;
    match event
    case Arrives(m, _) => AdmitConserves(Remember(s, dedup, m.externalMessageId), Dispatch(m.locator, m));
    case RequestCompletes(locator) => CompleteConserves(s, locator);
    case WorkerStops =>
  }

  /**
   * While the channel is open each thread has at most one outstanding request, and is pending exactly while
   * it has one.
   */
  ghost predicate Serialized(s: RouterState) {
    s.channelOpen ==> forall l: string :: Outstanding(s, l) == if l in s.pending then 1 else 0
  }

  /** Sending one message of a free thread makes it busy. */
  lemma AdmitSerializes(s: RouterState, d: Dispatch)
    requires Serialized(s)
    ensures Serialized(Admit(s, d))
  {
    hide For, Completions;
    var s' := Admit(s, d);
    if s'.channelOpen {
      forall l: string
        ensures Outstanding(s', l) == if l in s'.pending then 1 else 0
      {
        assert Outstanding(s, l) == if l in s.pending then 1 else 0;
        ForSnoc(s.sent, d, l);
      }
    }
  }

  lemma CompleteSerializes(s: RouterState, locator: string)
    requires Serialized(s) && Outstanding(s, locator) >= 1
    ensures Serialized(Complete(s, locator))
  {
    hide For, Completions;
    var s' := Complete(s, locator);
    if s'.channelOpen {
      forall l: string
        ensures Outstanding(s', l) == if l in s'.pending then 1 else 0
      {
        assert Outstanding(s, l) == if l in s.pending then 1 else 0;
        CompletionsSnoc(s.completed, locator, l);
        if Queue(s, locator) != [] {
          ForSnoc(s.sent, Dispatch(locator, Queue(s, locator)[0]), l);
        }
      }
    }
  }

  lemma HandleSerializes(s: RouterState, dedup: bool, event: Event)
    requires Serialized(s)
    requires event.RequestCompletes? ==> Outstanding(s, event.locator) >= 1
    ensures Serialized(Handle(s, dedup, event))
  {
    hide For, Completions, Admit, Complete;
    match event
    case Arrives(m, _) => AdmitSerializes(Remember(s, dedup, m.externalMessageId), Dispatch(m.locator, m));
    case RequestCompletes(locator) => CompleteSerializes(s, locator);
    case WorkerStops =>
  }

  /**
   * Over any run, open or closed, messages taken in for the agent are sent or still queued, in order, each
   * exactly once.
   */
  lemma {:induction false} NothingLost(s: RouterState, dedup: bool, events: seq<Event>)
    requires Conserved(s)
    ensures Conserved(HandleAll(s, dedup, events))
    decreases |events|
  {
    hide Handle, Conserved;
    if events != [] {
      HandleConserves(s, dedup, events[0]);
      NothingLost(Handle(s, dedup, events[0]), dedup, events[1..]);
    }
  }

  lemma {:induction false} RunSerializes(s: RouterState, dedup: bool, events: seq<Event>)
    requires Conserved(s) && Serialized(s) && Honest(s, dedup, events)
    ensures Conserved(HandleAll(s, dedup, events)) && Serialized(HandleAll(s, dedup, events))
    decreases |events|
  {
    hide Handle, Conserved, Serialized, Outstanding;
    if events != [] {
      HandleConserves(s, dedup, events[0]);
      HandleSerializes(s, dedup, events[0]);
      RunSerializes(Handle(s, dedup, events[0]), dedup, events[1..]);
    }
  }

  lemma NothingYet()
    ensures Conserved(STARTED) && Serialized(STARTED)
  {
  }

  /**
   * In every state reached with the channel open: a thread is pending exactly when one request of
   * it is outstanding, a non-empty queue means pending, and what was sent is the shortest prefix
   * of what was accepted that keeps one request going.
   */
  lemma OneAtATime(dedup: bool, events: seq<Event>, l: string)
    requires Honest(STARTED, dedup, events) && HandleAll(STARTED, dedup, events).channelOpen
    ensures var s := HandleAll(STARTED, dedup, events);
            var accepted, sent, done := For(s.accepted, l), For(s.sent, l), Completions(s.completed, l);
            && (l in s.pending <==> |sent| == done + 1)
            && (l !in s.pending <==> |sent| == done)
            && accepted == sent + Queue(s, l)
            && |sent| == (if done < |accepted| then done + 1 else |accepted|)
  {
    hide HandleAll, Honest, For, Completions;
    NothingYet();
    RunSerializes(STARTED, dedup, events);
    var s := HandleAll(STARTED, dedup, events);
    assert Outstanding(s, l) == if l in s.pending then 1 else 0;
  }

  // ---- A request that never completes ----------------------------------------------------------

  predicate NeverCompletes(events: seq<Event>, l: string) {
    forall i | 0 <= i < |events| :: events[i] != RequestCompletes(l)
  }

  lemma BlockedStep(s: RouterState, dedup: bool, event: Event, l: string)
    requires l in s.pending && event != RequestCompletes(l)
    ensures var t := Handle(s, dedup, event);
            l in t.pending && For(t.sent, l) == For(s.sent, l) && Queue(s, l) <= Queue(t, l)
  {
    hide For;
    match event
    case Arrives(m, _) => ForSnoc(s.sent, Dispatch(m.locator, m), l);
    case RequestCompletes(locator) =>
      if Queue(s, locator) != [] {
        ForSnoc(s.sent, Dispatch(locator, Queue(s, locator)[0]), l);
      }
    case WorkerStops =>
  }

  /** A thread whose request never completes stays pending, and nothing more of it is ever sent. */
  lemma {:induction false} BlockedForever(s: RouterState, dedup: bool, events: seq<Event>, l: string)
    requires l in s.pending && NeverCompletes(events, l)
    ensures var t := HandleAll(s, dedup, events);
            l in t.pending && For(t.sent, l) == For(s.sent, l) && Queue(s, l) <= Queue(t, l)
    decreases |events|
  {
    hide For, Handle, Queue;
    if events != [] {
      BlockedStep(s, dedup, events[0], l);
      BlockedForever(Handle(s, dedup, events[0]), dedup, events[1..], l);
    }
  }

  // ---- A worker that stopped -------------------------------------------------------------------

  lemma StrandedStep(s: RouterState, dedup: bool, event: Event, l: string)
    requires !s.channelOpen
    ensures var t := Handle(s, dedup, event);
            !t.channelOpen && t.sent == s.sent && Queue(s, l) <= Queue(t, l)
  {
  }

  /** Once the worker's channel is closed nothing more is sent, and what was queued stays queued for good. */
  lemma {:induction false} QueuedStrands(s: RouterState, dedup: bool, events: seq<Event>, l: string)
    requires !s.channelOpen
    ensures var t := HandleAll(s, dedup, events);
            t.sent == s.sent && Queue(s, l) <= Queue(t, l)
    decreases |events|
  {
    hide Handle, Queue;
    if events != [] {
      StrandedStep(s, dedup, events[0], l);
      QueuedStrands(Handle(s, dedup, events[0]), dedup, events[1..], l);
    }
  }

  // ---- Duplicates within one process -----------------------------------------------------------

  /** Every external id taken in is remembered, and no two taken-in messages share one. */
  predicate NoDuplicates(s: RouterState) {
    && (forall i | 0 <= i < |s.accepted| ::
          s.accepted[i].message.externalMessageId.Some? ==> s.accepted[i].message.externalMessageId.value in s.seen)
    && (forall i, j | 0 <= i < j < |s.accepted| ::
          s.accepted[i].message.externalMessageId.Some? ==>
            s.accepted[i].message.externalMessageId != s.accepted[j].message.externalMessageId)
  }

  /** With dedup on, no external message id is taken in for the agent twice, however often it is delivered. */
  lemma {:induction false} TakenInOnce(s: RouterState, events: seq<Event>)
    requires NoDuplicates(s)
    ensures NoDuplicates(HandleAll(s, true, events))
    decreases |events|
  {
    if events != [] {
      HandleDeduplicates(s, events[0]);
      TakenInOnce(Handle(s, true, events[0]), events[1..]);
    }
  }

  lemma AdmitDeduplicates(s: RouterState, d: Dispatch)
    requires NoDuplicates(s)
    requires d.message.externalMessageId.Some? ==> d.message.externalMessageId.value !in s.seen
    ensures NoDuplicates(Admit(Remember(s, true, d.message.externalMessageId), d))
  {
    var known := Remember(s, true, d.message.externalMessageId);
    assert NoDuplicates(known);
    assert forall i | 0 <= i < |s.accepted| :: (s.accepted + [d])[i] == s.accepted[i];
  }

  lemma HandleDeduplicates(s: RouterState, event: Event)
    requires NoDuplicates(s)
    ensures NoDuplicates(Handle(s, true, event))
  {
    hide Admit;
    match event
    case Arrives(m, fate) =>
      if !(m.externalMessageId.Some? && m.externalMessageId.value in s.seen) {
        AdmitDeduplicates(s, Dispatch(m.locator, m));
      }
    case RequestCompletes(_) =>
    case WorkerStops =>
  }

  // ---- Redelivery ------------------------------------------------------------------------------

  predicate Names(ds: seq<Dispatch>, id: string) {
    exists i | 0 <= i < |ds| :: ds[i].message.externalMessageId == Some(id)
  }

  /** Neither taken in nor answered so far. */
  predicate Unheard(s: RouterState, id: string) {
    !Names(s.accepted, id) && !Names(s.answered, id)
  }

  /** The message is for the agent, and its thread is busy or the worker can be reached. */
  predicate Admissible(s: RouterState, m: IncomingMessage, fate: Fate) {
    Unrecognized(s, m, fate) && (m.locator in s.pending || s.channelOpen)
  }

  /**
   * Lost although nobody processed it: its lookup failed, its command failed before a reply, or
   * it was turned away because the worker's channel was closed.
   */
  predicate Swallowed(s: RouterState, m: IncomingMessage, fate: Fate) {
    || fate.LookupFails?
    || (fate.Command? && fate.fails)
    || (Unrecognized(s, m, fate) && m.locator !in s.pending && !s.channelOpen)
  }

  lemma NamesSnoc(ds: seq<Dispatch>, d: Dispatch, id: string)
    ensures Names(ds + [d], id) <==> Names(ds, id) || d.message.externalMessageId == Some(id)
  {
    var longer := ds + [d];
    assert longer[|ds|] == d;
    if Names(ds, id) {
      var i :| 0 <= i < |ds| && ds[i].message.externalMessageId == Some(id);
      assert longer[i] == ds[i];
    }
  }

  /** Once an id is remembered, no event changes whether it was taken in or answered: its redelivery is a no-op. */
  lemma RememberedStays(s: RouterState, event: Event, id: string)
    requires id in s.seen
    ensures var t := Handle(s, true, event);
            && id in t.seen
            && (Names(t.accepted, id) <==> Names(s.accepted, id))
            && (Names(t.answered, id) <==> Names(s.answered, id))
    ensures event.Arrives? && event.message.externalMessageId == Some(id) ==> Handle(s, true, event) == s
  {
    hide Names;
    if event.Arrives? {
      var d := Dispatch(event.message.locator, event.message);
      NamesSnoc(s.accepted, d, id);
      NamesSnoc(s.answered, d, id);
    }
  }

  lemma {:induction false} RunRemembers(s: RouterState, events: seq<Event>, id: string)
    requires id in s.seen
    ensures var t := HandleAll(s, true, events);
            && (Names(t.accepted, id) <==> Names(s.accepted, id))
            && (Names(t.answered, id) <==> Names(s.answered, id))
    decreases |events|
  {
    hide Handle, Names;
    if events != [] {
      RememberedStays(s, events[0], id);
      RunRemembers(Handle(s, true, events[0]), events[1..], id);
    }
  }

  /**
   * With dedup on, the first delivery of an id decides: whatever happens afterwards, redeliveries
   * included, the message is taken in, or answered, exactly when its first delivery was, and it is
   * lost exactly when its first delivery swallowed it.
   */
  lemma FirstDeliveryDecides(s: RouterState, m: IncomingMessage, fate: Fate, events: seq<Event>)
    requires m.externalMessageId.Some? && m.externalMessageId.value !in s.seen && Unheard(s, m.externalMessageId.value)
    ensures var id, t := m.externalMessageId.value, HandleAll(Arrive(s, true, m, fate), true, events);
            && (Names(t.accepted, id) <==> Admissible(s, m, fate))
            && (Names(t.answered, id) <==> Answerable(s, m, fate))
            && (Unheard(t, id) && !fate.AlreadyProcessed? <==> Swallowed(s, m, fate))
  {
    hide HandleAll, Names;
    var id, first := m.externalMessageId.value, Arrive(s, true, m, fate);
    NamesSnoc(s.accepted, Dispatch(m.locator, m), id);
    NamesSnoc(s.answered, Dispatch(m.locator, m), id);
    assert id in first.seen;
    RunRemembers(first, events, id);
  }

  // ---- The router, updated in place ------------------------------------------------------------

  class ChannelRouter {
    const messageDedupEnabled: bool
    var pendingThreads: set<string>
    var queuedMessages: map<string, seq<IncomingMessage>>
    var seenMessages: set<string>
    var agentChannel: seq<Dispatch>
    var agentChannelOpen: bool
    ghost var accepted: seq<Dispatch>
    ghost var refused: seq<Dispatch>
    ghost var answered: seq<Dispatch>
    ghost var completed: seq<string>

    ghost function View(): RouterState
      reads this
    {
      RouterState(pendingThreads, queuedMessages, seenMessages, agentChannel,
                  accepted, refused, answered, completed, agentChannelOpen)
    }

    constructor (messageDedupEnabled: bool)
      ensures View() == STARTED && this.messageDedupEnabled == messageDedupEnabled
    {
      this.messageDedupEnabled := messageDedupEnabled;
      pendingThreads, queuedMessages, seenMessages, agentChannel, agentChannelOpen := {}, map[], {}, [], true;
      accepted, refused, answered, completed := [], [], [], [];
    }

    /** True when the message was not seen before, or names no external id. */
    method MarkMessageSeen(id: Option<string>) returns (unseen: bool)
      modifies this`seenMessages
      ensures unseen <==> id.None? || id.value !in old(seenMessages)
      ensures seenMessages == old(seenMessages) + (if id.Some? then {id.value} else {})
    {
      if id.None? {
        return true;
      }
      unseen := id.value !in seenMessages;
      seenMessages := seenMessages + {id.value};
    }

    /** A send to a stopped worker frees the thread again and reports an error. */
    method DispatchToAgent(locator: string, message: IncomingMessage) returns (ok: bool)
      modifies this`agentChannel, this`pendingThreads
      ensures ok == agentChannelOpen
      ensures agentChannel == if ok then old(agentChannel) + [Dispatch(locator, message)] else old(agentChannel)
      ensures pendingThreads == if ok then old(pendingThreads) else old(pendingThreads) - {locator}
    {
      ok := agentChannelOpen;
      if ok {
        agentChannel := agentChannel + [Dispatch(locator, message)];
      } else {
        pendingThreads := pendingThreads - {locator};
      }
    }

    method AdmitMessage(locator: string, message: IncomingMessage) returns (ok: bool)
      modifies this
      ensures View() == Admit(old(View()), Dispatch(locator, message))
    {
      var marked := locator !in pendingThreads;
      pendingThreads := pendingThreads + {locator};
      if !marked {
        var queue := if locator in queuedMessages then queuedMessages[locator] else [];
        queuedMessages := queuedMessages[locator := queue + [message]];
        accepted := accepted + [Dispatch(locator, message)];
        assert pendingThreads == old(pendingThreads);
        return true;
      }
      ok := DispatchToAgent(locator, message);
      if ok {
        accepted := accepted + [Dispatch(locator, message)];
      } else {
        refused := refused + [Dispatch(locator, message)];
        assert pendingThreads == old(pendingThreads);
      }
    }

    method HandleIncoming(message: IncomingMessage, fate: Fate) returns (ok: bool)
      modifies this
      ensures View() == Arrive(old(View()), messageDedupEnabled, message, fate)
    {
      hide Admit;
      if messageDedupEnabled {
        var unseen := MarkMessageSeen(message.externalMessageId);
        if !unseen {
          assert seenMessages == old(seenMessages);
          return true;
        }
        assert View() == Remember(old(View()), true, message.externalMessageId);
      }
      if fate.LookupFails? {
        return false;
      }
      if fate.AlreadyProcessed? && message.externalMessageId.Some? {
        return true;
      }
      if fate.Command? {
        if (message.locator in pendingThreads && fate.idleOnly) || fate.fails || fate.replies {
          if !fate.fails {
            answered := answered + [Dispatch(message.locator, message)];
          }
          return !fate.fails;
        }
      }
      ok := AdmitMessage(message.locator, message);
    }

    method ReleaseOrDispatchNext(locator: string) returns (ok: bool)
      modifies this
      ensures View() == Complete(old(View()), locator)
    {
      completed := completed + [locator];
      if locator in queuedMessages && queuedMessages[locator] != [] {
        var queue := queuedMessages[locator];
        ok := DispatchToAgent(locator, queue[0]);
        if ok {
          queuedMessages := if |queue| == 1 then queuedMessages - {locator} else queuedMessages[locator := queue[1..]];
        }
        return;
      }
      pendingThreads := pendingThreads - {locator};
      ok := true;
    }

    /** The service loop over the events that reach it; a handler's error is logged and the loop goes on. */
    method RunUntilShutdown(events: seq<Event>)
      modifies this
      ensures View() == HandleAll(old(View()), messageDedupEnabled, events)
    {
      hide Handle, Arrive, Complete;
      var i := 0;
      while i < |events|
        invariant i <= |events|
        invariant HandleAll(View(), messageDedupEnabled, events[i..])
                  == HandleAll(old(View()), messageDedupEnabled, events)
      {
        assert events[i..][1..] == events[i + 1..];
        HandleOne(events[i]);
        i := i + 1;
      }
    }

    method HandleOne(event: Event)
      modifies this
      ensures View() == Handle(old(View()), messageDedupEnabled, event)
    {
      hide Arrive, Complete;
      match event
      case Arrives(message, fate) => var _ := HandleIncoming(message, fate);
      case RequestCompletes(locator) => var _ := ReleaseOrDispatchNext(locator);
      case WorkerStops => agentChannelOpen := false;
    }
  }
}
