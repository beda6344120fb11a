/** Background command sessions: the events of a process, collected into numbered chunks of output. */
module CommandSessions {
  import opened Wrappers
  import opened Text

  datatype ProcessEvent = Output(chunk: string) | Exit(code: int)

  datatype TaskStatus = Doing | Finished

  /**
   * One session: the events its process has sent and nobody received yet, the output not yet
   * taken, and the snapshot fields. `applied` and `delivered` record, in order, the events received
   * and the chunks of output taken so far. A caller gets its chunk truncated, and the rest of it is gone.
   */
  datatype Session = Session(
    threadId: string,
    inbox: seq<ProcessEvent>,
    pendingOutput: string,
    nextChunkId: nat,
    status: TaskStatus,
    exitCode: Option<int>,
    hasUnreadOutput: bool,
    applied: seq<ProcessEvent>,
    delivered: seq<string>)

  /** What one wait on the event channel brings: events, the first of which wakes the caller, or nothing more. */
  datatype Wait = Brings(first: ProcessEvent, rest: seq<ProcessEvent>) | ChannelClosed | TimedOut

  datatype CommandResult =
    CommandResult(chunkId: nat, exitCode: Option<int>, output: string, originalTokenCount: nat, running: bool)

  datatype CommandError = BlankCommand | UnknownSession | WrongThread | AlreadyExited(code: int) | StdinClosed

  // ---- Truncation ------------------------------------------------------------------------------

  const DEFAULT_MAX_OUTPUT_TOKENS: nat := 4000
  const USIZE_MAX: nat := 0xFFFF_FFFF_FFFF_FFFF

  /** Four characters to a token, rounded up. */
  function TokenCount(content: string): nat {
    (|content| + 3) / 4
  }

  /** `saturating_mul(4)` */
  function MaxChars(maxTokens: nat): nat {
    if maxTokens * 4 > USIZE_MAX then USIZE_MAX else maxTokens * 4
  }

  function Truncated(content: string, maxTokens: Option<nat>): (string, nat) {
    var n := MaxChars(maxTokens.GetOr(DEFAULT_MAX_OUTPUT_TOKENS));
    (if n < |content| then content[..n] else content, TokenCount(content))
  }

  /**
   * `truncate_output`: a prefix of at most the allowed tokens, as long as they allow, and the
   * whole text exactly when that fits (no string is longer than `usize` can count).
   */
  method TruncateOutput(content: string, maxTokens: Option<nat>) returns (r: string, originalTokenCount: nat)
    ensures (r, originalTokenCount) == Truncated(content, maxTokens)
    ensures r <= content && originalTokenCount == TokenCount(content)
    ensures TokenCount(r) <= maxTokens.GetOr(DEFAULT_MAX_OUTPUT_TOKENS)
    ensures |content| <= USIZE_MAX ==> (r == content
                                        <==> originalTokenCount <= maxTokens.GetOr(DEFAULT_MAX_OUTPUT_TOKENS))
    ensures |content| <= USIZE_MAX && r != content ==> TokenCount(r) == maxTokens.GetOr(DEFAULT_MAX_OUTPUT_TOKENS)
  {
    originalTokenCount := TokenCount(content);
    var limit := maxTokens.GetOr(DEFAULT_MAX_OUTPUT_TOKENS);
    if limit == 0 {
      return "", originalTokenCount;
    }
    var maxChars := MaxChars(limit);
    r := "";
    var index := 0;
    while index < |content| && index < maxChars
      invariant index <= |content| && index <= maxChars
      invariant r == content[..index]
    {
      r := r + [content[index]];
      index := index + 1;
    }
    assert content[..|content|] == content;
  }

  // ---- Receiving events --------------------------------------------------------------------------

  /** `apply_event` */
  function ApplyEvent(s: Session, e: ProcessEvent): Session {
    match e
    case Output(chunk) =>
      s.(pendingOutput := s.pendingOutput + chunk, hasUnreadOutput := s.pendingOutput + chunk != "",
         applied := s.applied + [e])
    case Exit(code) => s.(status := Finished, exitCode := Some(code), applied := s.applied + [e])
  }

  /** `drain_available_events` */
  function Drain(s: Session): Session
    decreases |s.inbox|
  {
    if s.inbox == [] then s else Drain(ApplyEvent(s.(inbox := s.inbox[1..]), s.inbox[0]))
  }

  /** The wait loop of `collect_result`: it ends at an exit, a closed channel or the deadline. */
  function Collect(s: Session, waits: seq<Wait>): Session
    decreases |waits|
  {
    if waits == [] || !waits[0].Brings? then s
    else
      var received := Received(s, waits[0]);
      if waits[0].first.Exit? then received else Collect(received, waits[1..])
  }

  /** The event that was waited for, and all that has arrived behind it. */
  function Received(s: Session, wait: Wait): Session
    requires wait.Brings?
  {
    Drain(ApplyEvent(s.(inbox := s.inbox + wait.rest), wait.first))
  }

  function Take(s: Session): Session {
    s.(pendingOutput := "", nextChunkId := s.nextChunkId + 1, hasUnreadOutput := false,
       delivered := s.delivered + [s.pendingOutput])
  }

  function Report(s: Session, maxTokens: Option<nat>): CommandResult {
    var (output, count) := Truncated(s.pendingOutput, maxTokens);
    CommandResult(s.nextChunkId, s.exitCode, output, count, s.status.Doing?)
  }

  /** `collect_result` */
  function CollectResult(s: Session, waits: seq<Wait>, maxTokens: Option<nat>): (Session, CommandResult) {
    var collected := Collect(Drain(s), waits);
    (Take(collected), Report(collected, maxTokens))
  }

  /** `refresh_record_snapshot` */
  function Refresh(s: Session): Session {
    var drained := Drain(s);
    drained.(hasUnreadOutput := drained.pendingOutput != "")
  }

  // ---- Calls -----------------------------------------------------------------------------------

  datatype Call =
    | Sends(sessionId: string, event: ProcessEvent)
    | ExecCommand(sessionId: string, threadId: string, cmd: string, waits: seq<Wait>, maxTokens: Option<nat>)
    | WriteStdin(sessionId: string, threadId: string, chars: string, stdinOpen: bool, waits: seq<Wait>,
                 maxTokens: Option<nat>)
    | ListTasks

  type Sessions = map<string, Session>

  function Started(threadId: string): Session {
    Session(threadId, [], "", 0, Doing, None, false, [], [])
  }

  /** Why `write_stdin` would refuse, if it would. */
  function WriteError(m: Sessions, id: string, threadId: string, chars: string, stdinOpen: bool): Option<CommandError> {
    if id !in m then Some(UnknownSession)
    else if m[id].threadId != threadId then Some(WrongThread)
    else if m[id].status.Finished? && chars != "" then Some(AlreadyExited(m[id].exitCode.GetOr(0)))
    else if chars != "" && !stdinOpen then Some(StdinClosed)
    else None
  }

  /** One call; its result, if it produces a chunk. A new session's id is fresh, as a UUID is. */
  function Handle(m: Sessions, call: Call): (Sessions, Option<Result<CommandResult, CommandError>>) {
    match call
    case Sends(id, event) => (if id in m then m[id := m[id].(inbox := m[id].inbox + [event])] else m, None)
    case ExecCommand(id, threadId, cmd, waits, maxTokens) =>
      if IsBlank(cmd) then (m, Some(Err(BlankCommand)))
      else
        var collected := CollectResult(Started(threadId), waits, maxTokens);
        (m[id := collected.0], Some(Ok(collected.1)))
    case WriteStdin(id, threadId, chars, stdinOpen, waits, maxTokens) =>
      var error := WriteError(m, id, threadId, chars, stdinOpen);
      if error.Some? then (m, Some(Err(error.value)))
      else
        var collected := CollectResult(m[id], waits, maxTokens);
        (m[id := collected.0], Some(Ok(collected.1)))
    case ListTasks => (map id | id in m :: Refresh(m[id]), None)
  }

  function HandleAll(m: Sessions, calls: seq<Call>): Sessions
    decreases |calls|
  {
    if calls == [] then m else HandleAll(Handle(m, calls[0]).0, calls[1..])
  }

  /**
   * A session takes polls of its own thread always, and input while it runs with its stdin open; any other call on it
   * is refused with its reason and changes nothing. No call touches another session.
   */
  lemma WriteStdinAnswers(m: Sessions, call: Call)
    requires AllOk(m) && call.WriteStdin?
    ensures var (m', r), id := Handle(m, call), call.sessionId;
            var mine := id in m && m[id].threadId == call.threadId;
            && r.Some?
            && (r.value.Ok? <==> mine && (call.chars == "" || (m[id].exitCode.None? && call.stdinOpen)))
            && m'.Keys == m.Keys && (forall other | other in m && other != id :: m'[other] == m[other])
            && (r.value.Err? ==>
                  && m' == m
                  && r.value.error == if id !in m then UnknownSession
                                      else if !mine then WrongThread
                                      else if m[id].exitCode.Some? then AlreadyExited(m[id].exitCode.value)
                                      else StdinClosed)
  {
    hide CollectResult, LastExit, Flatten, Outputs;
    if call.sessionId in m {
      assert SessionOk(m[call.sessionId]);
    }
  }

  /** A blank command is refused; any other starts a session of its thread, and touches no other session. */
  lemma ExecCommandStarts(m: Sessions, call: Call)
    requires call.ExecCommand? && call.sessionId !in m
    ensures var (m', r) := Handle(m, call);
            if IsBlank(call.cmd) then m' == m && r == Some(Err(BlankCommand))
            else
              && r.Some? && r.value.Ok? && r.value.value.chunkId == 0
              && m'.Keys == m.Keys + {call.sessionId} && (forall other | other in m :: m'[other] == m[other])
              && m'[call.sessionId].threadId == call.threadId
  {
    hide IsBlank, Drain, Collect, Truncated, ApplyEvent, SessionOk;
    StartedOk(call.threadId);
    CollectResultKeeps(Started(call.threadId), call.waits, call.maxTokens);
  }

  /**
   * A listing receives all that every session's process has sent, and shows of each whether it has exited, with
   * what code, and whether output that nobody took is pending; it takes none itself.
   */
  lemma ListTasksShows(m: Sessions)
    requires AllOk(m)
    ensures var (m', r) := Handle(m, ListTasks);
            && r.None? && m'.Keys == m.Keys
            && forall id | id in m ::
                 var s := m'[id];
                 && s.inbox == [] && s.applied == Sent(m[id])
                 && s.delivered == m[id].delivered && s.threadId == m[id].threadId
                 && Flatten(s.delivered) + s.pendingOutput == Outputs(Sent(m[id]))
                 && s.exitCode == LastExit(Sent(m[id])) && (s.status.Finished? <==> s.exitCode.Some?)
                 && (s.hasUnreadOutput <==> s.pendingOutput != "")
  {
    hide Refresh, Outputs, Flatten, LastExit;
    forall id | id in m ensures SessionOk(m[id]) && Refresh(m[id]).inbox == []
                                && Refresh(m[id]).applied == Sent(m[id]) && SessionOk(Refresh(m[id]))
                                && Extends(m[id], Refresh(m[id])) && Refresh(m[id]).delivered == m[id].delivered
    {
      RefreshKeeps(m[id]);
      assert Refresh(m[id]).applied + [] == Refresh(m[id]).applied;
    }
  }

  // ---- Every output event is delivered once, in order ----------------------------------------------

  function Outputs(events: seq<ProcessEvent>): string {
    if events == [] then ""
    else
      var last := events[|events| - 1];
      Outputs(events[..|events| - 1]) + (if last.Output? then last.chunk else "")
  }

  function Flatten(chunks: seq<string>): string {
    if chunks == [] then "" else Flatten(chunks[..|chunks| - 1]) + chunks[|chunks| - 1]
  }

  function LastExit(events: seq<ProcessEvent>): Option<int> {
    if events == [] then None
    else if events[|events| - 1].Exit? then Some(events[|events| - 1].code)
    else LastExit(events[..|events| - 1])
  }

  /** Everything the process has sent, received or not. */
  function Sent(s: Session): seq<ProcessEvent> {
    s.applied + s.inbox
  }

  /**
   * The delivered chunks and then the pending output are the received output in order, chunks are
   * numbered from 0, a task is done exactly when an exit code is set, that code is the last one
   * received, and the unread flag says whether output is pending.
   */
  predicate SessionOk(s: Session) {
    && Flatten(s.delivered) + s.pendingOutput == Outputs(s.applied)
    && s.nextChunkId == |s.delivered|
    && (s.status.Finished? <==> s.exitCode.Some?)
    && s.exitCode == LastExit(s.applied)
    && (s.hasUnreadOutput <==> s.pendingOutput != "")
  }

  /** What never changes back as a session goes on. */
  predicate Extends(s: Session, s': Session) {
    && s'.threadId == s.threadId
    && s.delivered <= s'.delivered
    && s.applied <= s'.applied
    && (s.status.Finished? ==> s'.status.Finished?)
  }

  lemma ApplyKeeps(s: Session, e: ProcessEvent)
    requires SessionOk(s)
    ensures SessionOk(ApplyEvent(s, e)) && Extends(s, ApplyEvent(s, e))
  {
    var s' := ApplyEvent(s, e);
    assert s'.applied[..|s'.applied| - 1] == s.applied;
    if e.Output? {
      assert Flatten(s.delivered) + (s.pendingOutput + e.chunk) == Flatten(s.delivered) + s.pendingOutput + e.chunk;
    }
  }

  lemma {:induction false} DrainKeeps(s: Session)
    requires SessionOk(s)
    ensures var d := Drain(s);
            SessionOk(d) && Extends(s, d) && d.inbox == [] && Sent(d) == Sent(s) && d.delivered == s.delivered
    decreases |s.inbox|
  {
    hide ApplyEvent, SessionOk;
    if s.inbox == [] {
    } else {
      var next := ApplyEvent(s.(inbox := s.inbox[1..]), s.inbox[0]);
      InboxAside(s, s.inbox[1..]);
      ApplyKeeps(s.(inbox := s.inbox[1..]), s.inbox[0]);
      ApplyFrame(s.(inbox := s.inbox[1..]), s.inbox[0]);
      DrainKeeps(next);
      assert s.applied + [s.inbox[0]] + s.inbox[1..] == s.applied + s.inbox;
    }
  }

  lemma InboxAside(s: Session, inbox: seq<ProcessEvent>)
    ensures SessionOk(s.(inbox := inbox)) <==> SessionOk(s)
  {
  }

  lemma ApplyFrame(s: Session, e: ProcessEvent)
    ensures var s' := ApplyEvent(s, e);
            s'.inbox == s.inbox && s'.applied == s.applied + [e] && s'.delivered == s.delivered
  {
  }

  /** The events that the waits of one call bring to it before it stops waiting. */
  function Brought(waits: seq<Wait>): seq<ProcessEvent>
    decreases |waits|
  {
    if waits == [] || !waits[0].Brings? then []
    else [waits[0].first] + waits[0].rest + (if waits[0].first.Exit? then [] else Brought(waits[1..]))
  }

  lemma ReceiveKeeps(s: Session, wait: Wait)
    requires SessionOk(s) && s.inbox == [] && wait.Brings?
    ensures var received := Received(s, wait);
            && SessionOk(received) && Extends(s, received) && received.inbox == []
            && Sent(received) == Sent(s) + ([wait.first] + wait.rest) && received.delivered == s.delivered
  {
    hide ApplyEvent, SessionOk, Drain;
    var filled := s.(inbox := s.inbox + wait.rest);
    InboxAside(s, filled.inbox);
    ApplyKeeps(filled, wait.first);
    ApplyFrame(filled, wait.first);
    DrainKeeps(ApplyEvent(filled, wait.first));
  }

  lemma {:induction false} CollectKeeps(s: Session, waits: seq<Wait>)
    requires SessionOk(s) && s.inbox == []
    ensures var c := Collect(s, waits);
            SessionOk(c) && Extends(s, c) && c.inbox == [] && Sent(c) == Sent(s) + Brought(waits)
                && c.delivered == s.delivered
    decreases |waits|
  {
    hide SessionOk;
    if waits != [] && waits[0].Brings? {
      hide ApplyEvent, Drain;
      ReceiveKeeps(s, waits[0]);
      if !waits[0].first.Exit? {
        CollectKeeps(Received(s, waits[0]), waits[1..]);
      }
    }
  }

  lemma TakeKeeps(s: Session)
    requires SessionOk(s)
    ensures SessionOk(Take(s)) && Extends(s, Take(s))
  {
    assert Take(s).delivered[..|s.delivered|] == s.delivered;
  }

  /**
   * One collected chunk: numbered next, holding all received output that was still pending, and the last
   * word on the exit.
   */
  lemma CollectResultKeeps(s: Session, waits: seq<Wait>, maxTokens: Option<nat>)
    requires SessionOk(s)
    ensures var (s', r) := CollectResult(s, waits, maxTokens);
            && SessionOk(s') && Extends(s, s') && s'.inbox == [] && Sent(s') == Sent(s) + Brought(waits)
            && s'.pendingOutput == "" && !s'.hasUnreadOutput
            && |s'.delivered| == |s.delivered| + 1
            && r.chunkId == |s.delivered|
            && (r.output, r.originalTokenCount) == Truncated(s'.delivered[r.chunkId], maxTokens)
            && r.exitCode == s'.exitCode && (r.running <==> s'.exitCode.None?)
  {
    hide Drain, Collect, Truncated, ApplyEvent;
    DrainKeeps(s);
    CollectKeeps(Drain(s), waits);
    TakeKeeps(Collect(Drain(s), waits));
  }

  lemma RefreshKeeps(s: Session)
    requires SessionOk(s)
    ensures SessionOk(Refresh(s)) && Extends(s, Refresh(s)) && Sent(Refresh(s)) == Sent(s)
            && Refresh(s).delivered == s.delivered && Refresh(s).inbox == []
  {
    hide Drain;
    DrainKeeps(s);
  }

  predicate AllOk(m: Sessions) {
    forall id | id in m :: SessionOk(m[id])
  }

  /** The events that one call adds to what a session's process has sent. */
  function Adds(m: Sessions, call: Call, id: string): seq<ProcessEvent> {
    match call
    case Sends(to, event) => if to == id then [event] else []
    case WriteStdin(to, threadId, chars, stdinOpen, waits, _) =>
      if to == id && WriteError(m, id, threadId, chars, stdinOpen).None? then Brought(waits) else []
    case _ => []
  }

  function AddsAll(m: Sessions, calls: seq<Call>, id: string): seq<ProcessEvent>
    decreases |calls|
  {
    if calls == [] then [] else Adds(m, calls[0], id) + AddsAll(Handle(m, calls[0]).0, calls[1..], id)
  }

  /** No call starts a session under an id already in use. */
  predicate FreshIds(m: Sessions, calls: seq<Call>)
    decreases |calls|
  {
    calls == [] ||
    ((calls[0].ExecCommand? ==> calls[0].sessionId !in m) && FreshIds(Handle(m, calls[0]).0, calls[1..]))
  }

  lemma HandleKeeps(m: Sessions, call: Call)
    requires AllOk(m)
    ensures AllOk(Handle(m, call).0)
  {
    hide SessionOk, CollectResult, Refresh, IsBlank, Extends;
    match call
    case Sends(id, event) => if id in m { InboxAside(m[id], m[id].inbox + [event]); }
    case ExecCommand(_, threadId, _, waits, maxTokens) =>
      StartedOk(threadId);
      CollectResultKeeps(Started(threadId), waits, maxTokens);
    case WriteStdin(id, _, _, _, waits, maxTokens) => if id in m { CollectResultKeeps(m[id], waits, maxTokens); }
    case ListTasks =>
      forall id | id in m ensures SessionOk(Refresh(m[id])) {
        RefreshKeeps(m[id]);
      }
  }

  lemma StartedOk(threadId: string)
    ensures SessionOk(Started(threadId))
  {
  }

  lemma HandleExtends(m: Sessions, call: Call, id: string)
    requires AllOk(m) && id in m && (call.ExecCommand? ==> call.sessionId !in m)
    ensures var m' := Handle(m, call).0;
            id in m' && Extends(m[id], m'[id]) && Sent(m'[id]) == Sent(m[id]) + Adds(m, call, id)
  {
    hide SessionOk, CollectResult, Refresh, IsBlank;
    assert SessionOk(m[id]);
    match call
    case Sends(to, event) => assert m[id].applied + m[id].inbox + [event] == m[id].applied + (m[id].inbox + [event]);
    case ExecCommand(_, _, _, _, _) =>
    case WriteStdin(to, _, _, _, waits, maxTokens) => if to == id { CollectResultKeeps(m[id], waits, maxTokens); }
    case ListTasks => RefreshKeeps(m[id]);
  }

  /**
   * Over any sequence of calls: a session's delivered chunks and pending output are exactly the
   * output its process sent and it received, in order; nothing delivered is taken back, no event
   * is lost or repeated, and a finished task stays finished.
   */
  lemma {:induction false} OutputConserved(m: Sessions, calls: seq<Call>, id: string)
    requires AllOk(m) && id in m && FreshIds(m, calls)
    ensures var m' := HandleAll(m, calls);
            && AllOk(m') && id in m' && Extends(m[id], m'[id])
            && Sent(m'[id]) == Sent(m[id]) + AddsAll(m, calls, id)
            && Flatten(m'[id].delivered) + m'[id].pendingOutput == Outputs(m'[id].applied)
    decreases |calls|
  {
    hide Handle, Adds, Flatten, Outputs, LastExit;
    if calls == [] {
      assert SessionOk(m[id]);
      assert Sent(m[id]) + [] == Sent(m[id]);
    } else {
      HandleKeeps(m, calls[0]);
      HandleExtends(m, calls[0], id);
      var m1 := Handle(m, calls[0]).0;
      OutputConserved(m1, calls[1..], id);
      Associates(Sent(m[id]), Adds(m, calls[0], id), AddsAll(m1, calls[1..], id));
    }
  }

  // ---- What the callers get of it ------------------------------------------------------------------

  /** One chunk as a caller got it, and the limit it had asked for. */
  datatype Handout = Handout(output: string, maxTokens: Option<nat>)

  /** What one call hands out of a session. */
  function HandedBy(m: Sessions, call: Call, id: string): seq<Handout> {
    var r := Handle(m, call).1;
    if (call.ExecCommand? || call.WriteStdin?) && call.sessionId == id && r.Some? && r.value.Ok? then
      [Handout(r.value.value.output, call.maxTokens)]
    else []
  }

  function HandedOut(m: Sessions, calls: seq<Call>, id: string): seq<Handout>
    decreases |calls|
  {
    if calls == [] then [] else HandedBy(m, calls[0], id) + HandedOut(Handle(m, calls[0]).0, calls[1..], id)
  }

  function Texts(handouts: seq<Handout>): (texts: seq<string>)
    ensures |texts| == |handouts|
    ensures forall k | 0 <= k < |texts| :: texts[k] == handouts[k].output
  {
    seq(|handouts|, k requires 0 <= k < |handouts| => handouts[k].output)
  }

  function Delivered(m: Sessions, id: string): seq<string> {
    if id in m then m[id].delivered else []
  }

  /** The chunk is no longer than its caller allowed. */
  predicate Fits(chunk: string, maxTokens: Option<nat>) {
    |chunk| <= MaxChars(maxTokens.GetOr(DEFAULT_MAX_OUTPUT_TOKENS))
  }

  /** Each handout is its chunk, truncated. */
  predicate HandsOut(handouts: seq<Handout>, chunks: seq<string>) {
    && |handouts| == |chunks|
    && forall k | 0 <= k < |chunks| :: handouts[k].output == Truncated(chunks[k], handouts[k].maxTokens).0
  }

  lemma CallHandsOut(m: Sessions, call: Call, id: string)
    requires AllOk(m) && (call.ExecCommand? ==> call.sessionId !in m)
    ensures var before, after := Delivered(m, id), Delivered(Handle(m, call).0, id);
            before <= after && HandsOut(HandedBy(m, call, id), after[|before|..])
  {
    hide SessionOk, CollectResult, Refresh, IsBlank, Truncated;
    match call
    case Sends(_, _) =>
    case ExecCommand(to, threadId, _, waits, maxTokens) =>
      StartedOk(threadId);
      CollectResultKeeps(Started(threadId), waits, maxTokens);
    case WriteStdin(to, _, _, _, waits, maxTokens) => if to in m { CollectResultKeeps(m[to], waits, maxTokens); }
    case ListTasks => if id in m { RefreshKeeps(m[id]); }
  }

  lemma HandsOutThen(a: seq<Handout>, x: seq<string>, b: seq<Handout>, y: seq<string>)
    requires HandsOut(a, x) && HandsOut(b, y)
    ensures HandsOut(a + b, x + y)
  {
    hide Truncated;
  }

  lemma TruncatedFits(chunk: string, maxTokens: Option<nat>)
    ensures |Truncated(chunk, maxTokens).0| <= |chunk|
    ensures |Truncated(chunk, maxTokens).0| == |chunk| <==> Fits(chunk, maxTokens)
    ensures Truncated(chunk, maxTokens).0 == chunk <==> Fits(chunk, maxTokens)
  {
  }

  /** Truncated chunks add up to the chunks exactly when none of them was cut. */
  lemma {:induction false} HandedWhole(handouts: seq<Handout>, chunks: seq<string>)
    requires HandsOut(handouts, chunks)
    ensures |Flatten(Texts(handouts))| <= |Flatten(chunks)|
    ensures |Flatten(Texts(handouts))| == |Flatten(chunks)| ==> Flatten(Texts(handouts)) == Flatten(chunks)
    ensures |Flatten(Texts(handouts))| == |Flatten(chunks)|
       <==> forall k | 0 <= k < |chunks| :: Fits(chunks[k], handouts[k].maxTokens)
  {
    hide Truncated, Fits;
    if chunks != [] {
      var n := |chunks| - 1;
      HandedWhole(handouts[..n], chunks[..n]);
      TruncatedFits(chunks[n], handouts[n].maxTokens);
      assert Texts(handouts)[..n] == Texts(handouts[..n]);
      assert forall k | 0 <= k < n :: chunks[..n][k] == chunks[k] && handouts[..n][k] == handouts[k];
    }
  }

  /**
   * Over any calls, those that produced a chunk of a session were handed the chunks that left it, each
   * truncated; they got the whole output exactly when every chunk fits the limit of its call.
   */
  lemma {:induction false} HandedExactly(m: Sessions, calls: seq<Call>, id: string)
    requires AllOk(m) && FreshIds(m, calls)
    ensures Delivered(m, id) <= Delivered(HandleAll(m, calls), id)
    ensures var got, chunks := HandedOut(m, calls, id), Delivered(HandleAll(m, calls), id)[|Delivered(m, id)|..];
            && HandsOut(got, chunks)
            && (Flatten(Texts(got)) == Flatten(chunks)
                <==> forall k | 0 <= k < |chunks| :: Fits(chunks[k], got[k].maxTokens))
    decreases |calls|
  {
    hide Handle, Flatten, Truncated, Fits, HandsOut, HandedBy;
    var before, after := Delivered(m, id), Delivered(HandleAll(m, calls), id);
    if calls == [] {
      NothingHanded();
      assert before[|before|..] == [];
    } else {
      HandleKeeps(m, calls[0]);
      CallHandsOut(m, calls[0], id);
      var m1 := Handle(m, calls[0]).0;
      HandedExactly(m1, calls[1..], id);
      var middle := Delivered(m1, id);
      HandsOutThen(HandedBy(m, calls[0], id), middle[|before|..], HandedOut(m1, calls[1..], id), after[|middle|..]);
      assert after[|before|..] == middle[|before|..] + after[|middle|..];
    }
    HandedWhole(HandedOut(m, calls, id), after[|before|..]);
  }

  lemma NothingHanded()
    ensures HandsOut([], [])
  {
  }

  lemma Associates(a: seq<ProcessEvent>, b: seq<ProcessEvent>, c: seq<ProcessEvent>)
    ensures a + b + c == a + (b + c)
  {
  }

  // ---- Sessions, updated in place ----------------------------------------------------------------

  /** One session's record: its runtime behind the lock and its snapshot. */
  class CommandSessionRecord {
    const threadId: string
    var inbox: seq<ProcessEvent>
    var pendingOutput: string
    var nextChunkId: nat
    var status: TaskStatus
    var exitCode: Option<int>
    var hasUnreadOutput: bool
    ghost var applied: seq<ProcessEvent>
    ghost var delivered: seq<string>

    ghost function View(): Session
      reads this
    {
      Session(threadId, inbox, pendingOutput, nextChunkId, status, exitCode, hasUnreadOutput, applied, delivered)
    }

    constructor (threadId: string)
      ensures View() == Started(threadId)
    {
      this.threadId, inbox, pendingOutput, nextChunkId := threadId, [], "", 0;
      status, exitCode, hasUnreadOutput := Doing, None, false;
      applied, delivered := [], [];
    }

    /** The process side of the event channel. */
    method Send(event: ProcessEvent)
      modifies this`inbox
      ensures View() == old(View()).(inbox := old(inbox) + [event])
    {
      inbox := inbox + [event];
    }

    method Apply(event: ProcessEvent)
      modifies this
      ensures View() == ApplyEvent(old(View()), event)
    {
      match event {
        case Output(chunk) =>
          pendingOutput := pendingOutput + chunk;
          hasUnreadOutput := pendingOutput != "";
        case Exit(code) =>
          status := Finished;
          exitCode := Some(code);
      }
      applied := applied + [event];
    }

    method DrainAvailableEvents()
      modifies this
      ensures View() == Drain(old(View()))
    {
      hide ApplyEvent;
      while inbox != []
        invariant Drain(View()) == Drain(old(View()))
        decreases |inbox|
      {
        ApplyFrame(View().(inbox := inbox[1..]), inbox[0]);
        var event := inbox[0];
        inbox := inbox[1..];
        Apply(event);
      }
    }

    /**
     * `collect_result`: drain, wait for more until an exit or the deadline, and take everything pending as
     * one chunk.
     */
    method CollectChunk(waits: seq<Wait>, maxTokens: Option<nat>) returns (r: CommandResult)
      modifies this
      ensures (View(), r) == CollectResult(old(View()), waits, maxTokens)
    {
      hide ApplyEvent, Drain, Truncated;
      DrainAvailableEvents();
      ghost var start := View();
      var i, sawExit := 0, false;
      while i < |waits| && !sawExit && waits[i].Brings?
        invariant i <= |waits|
        invariant Collect(start, waits) == if sawExit then View() else Collect(View(), waits[i..])
      {
        assert waits[i..][1..] == waits[i + 1..];
        sawExit := waits[i].first.Exit?;
        ApplyFrame(View().(inbox := inbox + waits[i].rest), waits[i].first);
        inbox := inbox + waits[i].rest;
        Apply(waits[i].first);
        DrainAvailableEvents();
        i := i + 1;
      }
      assert View() == Collect(start, waits);
      var output, count := TruncateOutput(pendingOutput, maxTokens);
      r := CommandResult(nextChunkId, exitCode, output, count, status.Doing?);
      delivered := delivered + [pendingOutput];
      pendingOutput := "";
      nextChunkId := nextChunkId + 1;
      hasUnreadOutput := false;
    }

    method RefreshSnapshot()
      modifies this
      ensures View() == Refresh(old(View()))
    {
      hide Drain;
      DrainAvailableEvents();
      hasUnreadOutput := pendingOutput != "";
    }
  }
}
