/** Serialization of the unified history into OpenAI chat-completion messages. */
module OpenAiMessages {
  import opened Wrappers
  import opened Text
  import opened ChatModel

  datatype Wire =
    | SystemWire(content: string)
    | UserWire(content: string)
    | ToolWire(content: string, toolCallId: Option<string>)
    | AssistantWire(text: Option<string>, calls: seq<ToolCall>)

  datatype SerializeError = MissingToolCallId

  /** Blank assistant content is not sent at all. */
  function WireText(content: string): Option<string> {
    if IsBlank(content) then None else Some(content)
  }

  /** A history whose tool results all say which call they answer. */
  predicate Serializable(messages: seq<Message>) {
    forall i | 0 <= i < |messages| :: messages[i].role == ToolResult ==> messages[i].toolCallId.Some?
  }

  predicate StartsWithToolcall(messages: seq<Message>) {
    messages != [] && messages[0].role == Toolcall
  }

  predicate AllToolcalls(messages: seq<Message>) {
    forall i | 0 <= i < |messages| :: messages[i].role == Toolcall
  }

  /**
   * Reference meaning of a history, one message at a time from the right: a `Toolcall` or
   * `Assistant` message absorbs the assistant message that the `Toolcall`s right after it became.
   */
  function WireOf(messages: seq<Message>): (w: seq<Wire>)
    ensures messages == [] <==> w == []
    ensures StartsWithToolcall(messages) ==> w[0].AssistantWire? && w[0].text.None?
  {
    if messages == [] then []
    else Prepend(messages[0], StartsWithToolcall(messages[1..]), WireOf(messages[1..]))
  }

  /** The request `w` with one more message before it. */
  function Prepend(m: Message, joins: bool, w: seq<Wire>): (r: seq<Wire>)
    requires joins ==> w != [] && w[0].AssistantWire?
    ensures r != []
    ensures m.role == Toolcall ==> r[0].AssistantWire? && r[0].text.None?
  {
    match m.role
    case System => [SystemWire(m.content)] + w
    case User => [UserWire(m.content)] + w
    case ToolResult => [ToolWire(m.content, m.toolCallId)] + w
    case Assistant => Absorb(WireText(m.content), m.toolCalls, joins, w)
    case Toolcall => Absorb(None, m.toolCalls, joins, w)
  }

  /** An assistant message put before `w`, taking in `w`'s first message if that came from `Toolcall`s. */
  function Absorb(text: Option<string>, calls: seq<ToolCall>, joins: bool, w: seq<Wire>): (r: seq<Wire>)
    requires joins ==> w != [] && w[0].AssistantWire?
    ensures r != [] && r[0].AssistantWire? && r[0].text == text
  {
    if joins then [AssistantWire(text, calls + w[0].calls)] + w[1..]
    else [AssistantWire(text, calls)] + w
  }

  /** The request for an assistant message followed by `rest`. */
  function AssistantThen(text: Option<string>, calls: seq<ToolCall>, rest: seq<Message>): seq<Wire>
  {
    Absorb(text, calls, StartsWithToolcall(rest), WireOf(rest))
  }

  /** A run of `Toolcall`s before `rest` absorbs into one message, whatever its split. */
  lemma {:induction false} RunAbsorbs(text: Option<string>, calls: seq<ToolCall>, run: seq<Message>, rest: seq<Message>)
    requires AllToolcalls(run)
    ensures AssistantThen(text, calls, run + rest) == AssistantThen(text, calls + CallsOf(run), rest)
    decreases |run|
  {
    if run == [] {
      assert run + rest == rest;
      assert calls + [] == calls;
    } else {
      assert (run + rest)[1..] == run[1..] + rest;
      RunAbsorbs(None, run[0].toolCalls, run[1..], rest);
      var all := CallsOf(run);
      assert WireOf(run + rest) == AssistantThen(None, all, rest);
      if StartsWithToolcall(rest) {
        assert calls + (all + WireOf(rest)[0].calls) == calls + all + WireOf(rest)[0].calls;
      }
    }
  }

  lemma RunIsOneMessage(run: seq<Message>, rest: seq<Message>)
    requires run != [] && AllToolcalls(run)
    ensures WireOf(run + rest) == AssistantThen(None, CallsOf(run), rest)
  {
    var whole := run + rest;
    assert whole[0] == run[0] && whole[1..] == run[1..] + rest;
    RunAbsorbs(None, run[0].toolCalls, run[1..], rest);
  }

  /** The calls of the `Toolcall`s that `messages` opens with. */
  function RunCalls(messages: seq<Message>): seq<ToolCall> {
    if StartsWithToolcall(messages) then messages[0].toolCalls + RunCalls(messages[1..]) else []
  }

  /** What follows the `Toolcall`s that `messages` opens with. */
  function AfterRun(messages: seq<Message>): (rest: seq<Message>)
    ensures !StartsWithToolcall(rest)
    ensures Serializable(rest) <==> Serializable(messages)
  {
    if StartsWithToolcall(messages) then
      assert forall i | 1 <= i < |messages| :: messages[i] == messages[1..][i - 1];
      AfterRun(messages[1..])
    else messages
  }

  /** An assistant message takes in exactly the run that follows it. */
  lemma {:induction false} AssistantTakesRun(text: Option<string>, calls: seq<ToolCall>, rest: seq<Message>)
    ensures AssistantThen(text, calls, rest) == [AssistantWire(text, calls + RunCalls(rest))] + WireOf(AfterRun(rest))
    decreases |rest|
  {
    if StartsWithToolcall(rest) {
      AssistantTakesRun(None, rest[0].toolCalls, rest[1..]);
      assert WireOf(rest) == [AssistantWire(None, RunCalls(rest))] + WireOf(AfterRun(rest));
    } else {
      assert calls + [] == calls;
    }
  }

  method MessageStartsToolCallBatch(messages: seq<Message>, cursor: nat) returns (starts: bool)
    requires cursor < |messages|
    ensures starts <==> messages[cursor].toolCalls != [] || StartsWithToolcall(messages[cursor + 1..])
  {
    if messages[cursor].toolCalls != [] {
      return true;
    }
    starts := cursor + 1 < |messages| && messages[cursor + 1].role == Toolcall;
  }

  lemma RunHead(messages: seq<Message>, before: seq<ToolCall>)
    requires StartsWithToolcall(messages)
    ensures before + RunCalls(messages) == before + messages[0].toolCalls + RunCalls(messages[1..])
    ensures AfterRun(messages) == AfterRun(messages[1..])
  {
  }

  lemma RunEnds(messages: seq<Message>, before: seq<ToolCall>)
    requires !StartsWithToolcall(messages)
    ensures before + RunCalls(messages) == before && AfterRun(messages) == messages
  {
  }

  method CollectToolCallMessages(messages: seq<Message>, start: nat, assistant: Option<Message>)
    returns (merged: Message, consumed: nat)
    requires start <= |messages|
    ensures start + consumed <= |messages|
    ensures messages[start + consumed..] == AfterRun(messages[start..])
    ensures merged.role == Assistant && merged.toolCallId == None
    ensures merged.content == if assistant.Some? then assistant.value.content else ""
    ensures merged.toolCalls == (if assistant.Some? then assistant.value.toolCalls else [])
            + RunCalls(messages[start..])
    ensures consumed == 0 <==> !StartsWithToolcall(messages[start..])
  {
    hide RunCalls, AfterRun;
    var calls := if assistant.Some? then assistant.value.toolCalls else [];
    ghost var own, all := calls, messages[start..];
    ghost var rest := all;
    consumed := 0;
    while start + consumed < |messages| && messages[start + consumed].role == Toolcall
      invariant start + consumed <= |messages|
      invariant rest == messages[start + consumed..]
      invariant consumed == 0 ==> rest == all
      invariant consumed > 0 ==> StartsWithToolcall(all)
      invariant AfterRun(rest) == AfterRun(all)
      invariant calls + RunCalls(rest) == own + RunCalls(all)
    {
      RunHead(rest, calls);
      calls := calls + messages[start + consumed].toolCalls;
      consumed := consumed + 1;
      rest := rest[1..];
    }
    RunEnds(rest, calls);
    merged := NewMessage(Assistant, if assistant.Some? then assistant.value.content else "").(toolCalls := calls);
  }

  function SerializeAssistant(message: Message): Wire {
    AssistantWire(WireText(message.content), message.toolCalls)
  }

  /** `serialize_context_message` on one message taken by itself. */
  function SerializeContext(message: Message): (r: Result<Wire, SerializeError>)
    ensures r.Ok? <==> (message.role == ToolResult ==> message.toolCallId.Some?)
    ensures r.Ok? && message.role != Toolcall ==> forall w :: Prepend(message, false, w) == [r.value] + w
  {
    match message.role
    case System => Ok(SystemWire(message.content))
    case User => Ok(UserWire(message.content))
    case ToolResult =>
      if message.toolCallId.Some? then Ok(ToolWire(message.content, message.toolCallId)) else Err(MissingToolCallId)
    case Assistant => Ok(SerializeAssistant(message))
    case Toolcall => Ok(SerializeAssistant(message))
  }

  lemma ToolcallStep(messages: seq<Message>)
    requires StartsWithToolcall(messages)
    ensures WireOf(messages) == [AssistantWire(None, RunCalls(messages))] + WireOf(AfterRun(messages))
  {
    AssistantTakesRun(None, messages[0].toolCalls, messages[1..]);
  }

  lemma {:induction false} AssistantStep(messages: seq<Message>)
    requires messages != [] && messages[0].role == Assistant
    ensures WireOf(messages) == [AssistantWire(WireText(messages[0].content),
                                               messages[0].toolCalls + RunCalls(messages[1..]))]
                              + WireOf(AfterRun(messages[1..]))
    ensures Serializable(AfterRun(messages[1..])) <==> Serializable(messages)
  {
    AssistantTakesRun(WireText(messages[0].content), messages[0].toolCalls, messages[1..]);
    SerializableTail(messages);
  }

  lemma PlainStep(messages: seq<Message>)
    requires messages != [] && messages[0].role != Toolcall
    requires messages[0].role == Assistant ==> !StartsWithToolcall(messages[1..])
    ensures SerializeContext(messages[0]).Ok? ==>
              WireOf(messages) == [SerializeContext(messages[0]).value] + WireOf(messages[1..])
    ensures Serializable(messages) <==> SerializeContext(messages[0]).Ok? && Serializable(messages[1..])
  {
    SerializableTail(messages);
  }

  lemma NothingToSend()
    ensures Serializable([]) && WireOf([]) == []
  {
  }

  lemma Push(done: seq<Wire>, next: Wire, rest: seq<Wire>)
    ensures (done + [next]) + rest == done + ([next] + rest)
  {
  }

  /** The cursor loop computes the reference meaning, and fails exactly on an unanswerable tool result. */
  method SerializeOpenAiMessages(messages: seq<Message>) returns (result: Result<seq<Wire>, SerializeError>)
    ensures result.Ok? <==> Serializable(messages)
    ensures result.Ok? ==> result.value == WireOf(messages)
  {
    hide WireOf, AfterRun, RunCalls, Serializable, SerializeContext;
    var serialized: seq<Wire> := [];
    var cursor := 0;
    ghost var remaining := messages;
    NothingToSend();
    while cursor < |messages|
      invariant cursor <= |messages|
      invariant remaining == messages[cursor..]
      invariant Serializable(remaining) <==> Serializable(messages)
      invariant serialized + WireOf(remaining) == WireOf(messages)
    {
      var message := messages[cursor];
      var startsBatch := false;
      if message.role == Assistant {
        startsBatch := MessageStartsToolCallBatch(messages, cursor);
      }
      var wire: Wire;
      ghost var next;
      if message.role == Toolcall {
        var merged, consumed := CollectToolCallMessages(messages, cursor, None);
        wire := SerializeAssistant(merged);
        ToolcallStep(remaining);
        assert wire == AssistantWire(None, RunCalls(remaining)) by {
          assert [] + RunCalls(remaining) == RunCalls(remaining);
        }
        next := AfterRun(remaining);
        cursor := cursor + consumed;
      } else if message.role == Assistant && startsBatch {
        var merged, consumed := CollectToolCallMessages(messages, cursor + 1, Some(message));
        wire := SerializeAssistant(merged);
        AssistantStep(remaining);
        next := AfterRun(remaining[1..]);
        cursor := cursor + consumed + 1;
      } else {
        PlainStep(remaining);
        var context := SerializeContext(message);
        if context.Err? {
          return Err(context.error);
        }
        wire := context.value;
        next := remaining[1..];
        cursor := cursor + 1;
      }
      assert WireOf(remaining) == [wire] + WireOf(next);
      Push(serialized, wire, WireOf(next));
      serialized := serialized + [wire];
      remaining := next;
    }
    result := Ok(serialized);
  }

  lemma SerializableTail(messages: seq<Message>)
    requires messages != []
    ensures Serializable(messages)
       <==> (messages[0].role == ToolResult ==> messages[0].toolCallId.Some?) && Serializable(messages[1..])
  {
    assert forall i | 1 <= i < |messages| :: messages[i] == messages[1..][i - 1];
  }

  // ---- What serialization preserves --------------------------------------------------------

  /** Only assistant-side messages carry calls, and `Toolcall` messages carry no text. */
  predicate WellRoled(messages: seq<Message>) {
    forall i | 0 <= i < |messages| ::
      && (messages[i].toolCalls != [] ==> messages[i].role == Assistant || messages[i].role == Toolcall)
      && (messages[i].role == Toolcall ==> messages[i].content == "")
  }

  function WireCalls(w: seq<Wire>): seq<ToolCall> {
    if w == [] then []
    else (if w[0].AssistantWire? then w[0].calls else []) + WireCalls(w[1..])
  }

  /** No call is lost, duplicated or reordered. */
  lemma {:induction false} CallsPreserved(messages: seq<Message>)
    requires WellRoled(messages)
    ensures WireCalls(WireOf(messages)) == CallsOf(messages)
  {
    if messages != [] {
      var m, rest := messages[0], messages[1..];
      CallsPreserved(rest);
      var w := WireOf(rest);
      if m.role == Assistant || m.role == Toolcall {
        if StartsWithToolcall(rest) {
          assert m.toolCalls + w[0].calls + WireCalls(w[1..]) == m.toolCalls + (w[0].calls + WireCalls(w[1..]));
        }
      } else {
        assert m.toolCalls == [];
        assert [] + CallsOf(rest) == CallsOf(rest);
      }
    }
  }

  /** What a reader of the conversation sees of one message, tool calls aside. */
  datatype Spoken = Spoken(role: Role, content: string, answers: Option<string>)

  /** The history with its `Toolcall`s and its blank assistant messages left out. */
  function SpokenOf(messages: seq<Message>): seq<Spoken> {
    if messages == [] then []
    else
      var m := messages[0];
      (if m.role == Toolcall || (m.role == Assistant && IsBlank(m.content)) then []
       else [Spoken(m.role, m.content, if m.role == ToolResult then m.toolCallId else None)])
      + SpokenOf(messages[1..])
  }

  /** The request with its text-free assistant messages left out. */
  function SpokenWire(w: seq<Wire>): seq<Spoken> {
    if w == [] then []
    else
      (match w[0]
       case SystemWire(content) => [Spoken(System, content, None)]
       case UserWire(content) => [Spoken(User, content, None)]
       case ToolWire(content, id) => [Spoken(ToolResult, content, id)]
       case AssistantWire(None, _) => []
       case AssistantWire(Some(text), _) => [Spoken(Assistant, text, None)])
      + SpokenWire(w[1..])
  }

  /** Every message that is not a `Toolcall` reaches the provider once, in order, with its content. */
  lemma {:induction false} ContentPreserved(messages: seq<Message>)
    ensures SpokenWire(WireOf(messages)) == SpokenOf(messages)
  {
    if messages != [] {
      ContentPreserved(messages[1..]);
      var w := WireOf(messages[1..]);
      if StartsWithToolcall(messages[1..]) {
        assert SpokenWire(w) == [] + SpokenWire(w[1..]) == SpokenWire(w[1..]);
      }
    }
  }

  /** Two continuations that read the same still read the same after any common history. */
  lemma {:induction false} SameAfterPrefix(pre: seq<Message>, one: seq<Message>, other: seq<Message>)
    requires StartsWithToolcall(one) == StartsWithToolcall(other)
    requires one != [] && other != [] && WireOf(one) == WireOf(other)
    ensures WireOf(pre + one) == WireOf(pre + other)
  {
    if pre == [] {
      assert pre + one == one && pre + other == other;
    } else {
      SameAfterPrefix(pre[1..], one, other);
      assert (pre + one)[1..] == pre[1..] + one && (pre + other)[1..] == pre[1..] + other;
    }
  }

  /** How a batch is split across `Toolcall` messages does not change the request. */
  lemma SplitIrrelevant(pre: seq<Message>, one: seq<Message>, other: seq<Message>,
      post: seq<Message>)
    requires one != [] && other != [] && AllToolcalls(one) && AllToolcalls(other)
    requires CallsOf(one) == CallsOf(other)
    ensures WireOf(pre + (one + post)) == WireOf(pre + (other + post))
  {
    RunIsOneMessage(one, post);
    RunIsOneMessage(other, post);
    SameAfterPrefix(pre, one + post, other + post);
  }

  /** Nor does moving calls between an assistant message and the `Toolcall`s after it. */
  lemma CallsMayMoveToAssistant(pre: seq<Message>, m: Message, run: seq<Message>, post: seq<Message>)
    requires m.role == Assistant && AllToolcalls(run)
    ensures WireOf(pre + ([m] + (run + post))) == WireOf(pre + ([m.(toolCalls := m.toolCalls + CallsOf(run))] + post))
  {
    var m' := m.(toolCalls := m.toolCalls + CallsOf(run));
    RunAbsorbs(WireText(m.content), m.toolCalls, run, post);
    assert ([m] + (run + post))[1..] == run + post && ([m'] + post)[1..] == post;
    SameAfterPrefix(pre, [m] + (run + post), [m'] + post);
  }

  lemma PrependAppend(m: Message, joins: bool, w: seq<Wire>, more: seq<Wire>)
    requires joins ==> w != [] && w[0].AssistantWire?
    ensures Prepend(m, joins, w + more) == Prepend(m, joins, w) + more
  {
    if joins {
      assert (w + more)[1..] == w[1..] + more;
    }
  }

  /** Where the right part does not open with a `Toolcall`, both parts serialize separately. */
  lemma {:induction false} WireOfAppend(a: seq<Message>, b: seq<Message>)
    requires !StartsWithToolcall(b)
    ensures WireOf(a + b) == WireOf(a) + WireOf(b)
  {
    if a == [] {
      assert a + b == b;
    } else {
      var m, tail, whole := a[0], a[1..], a + b;
      WireOfAppend(tail, b);
      assert whole[0] == m && whole[1..] == tail + b;
      PrependAppend(m, StartsWithToolcall(tail), WireOf(tail), WireOf(b));
    }
  }
}
