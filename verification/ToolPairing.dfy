/** When a request meets the provider's rule that every tool call is answered right after it. */
module ToolPairing {
  import opened Wrappers
  import opened ChatModel
  import opened OpenAiMessages
  import opened ThreadAggregate
  import opened AgentLoop
  import opened AgentTurn

  predicate ToolsAnswer(w: seq<Wire>, calls: seq<ToolCall>) {
    |calls| <= |w| && forall i | 0 <= i < |calls| :: w[i].ToolWire? && w[i].toolCallId == Some(calls[i].id)
  }

  /**
   * The wire rule: an assistant message with k calls is immediately followed by k tool messages
   * with the same ids in order, and no tool message stands anywhere else.
   */
  predicate WellPaired(w: seq<Wire>)
    decreases |w|
  {
    if w == [] then true
    else if w[0].ToolWire? then false
    else if w[0].AssistantWire? then
      ToolsAnswer(w[1..], w[0].calls) && WellPaired(w[1 + |w[0].calls|..])
    else WellPaired(w[1..])
  }

  /** A message that neither makes nor answers a call. */
  predicate Plain(m: Message) {
    m.role == System || m.role == User || (m.role == Assistant && m.toolCalls == [])
  }

  /** A history that can be sent, and that more messages may follow. */
  predicate Ready(h: seq<Message>) {
    && Serializable(h)
    && WellPaired(WireOf(h))
    && (h != [] ==> h[|h| - 1].role != Toolcall)
  }

  /** What comes before, if paired by itself, does not decide whether the rest is. */
  lemma {:induction false} PairedPrefix(a: seq<Wire>, b: seq<Wire>)
    requires WellPaired(a)
    ensures WellPaired(a + b) <==> WellPaired(b)
    decreases |a|
  {
    if a == [] {
      assert a + b == b;
    } else {
      var n := if a[0].AssistantWire? then 1 + |a[0].calls| else 1;
      assert a[n..] + b == (a + b)[n..];
      assert (a + b)[1..] == a[1..] + b;
      PairedPrefix(a[n..], b);
    }
  }

  lemma AnsweredBefore(w: seq<Wire>, last: Wire, calls: seq<ToolCall>)
    requires ToolsAnswer(w + [last], calls) && last.AssistantWire?
    ensures ToolsAnswer(w, calls)
  {
    assert (w + [last])[|w|] == last;
    assert forall i | 0 <= i < |calls| :: w[i] == (w + [last])[i];
  }

  /** A request that ends in an assistant message is paired only if that message calls nothing. */
  lemma {:induction false} LastAssistantCallsNothing(w: seq<Wire>, text: Option<string>, calls: seq<ToolCall>)
    requires WellPaired(w + [AssistantWire(text, calls)])
    ensures WellPaired(w) && calls == []
    decreases |w|
  {
    var last := AssistantWire(text, calls);
    var all := w + [last];
    if w == [] {
      assert all == [last];
    } else {
      var n := if w[0].AssistantWire? then 1 + |w[0].calls| else 1;
      assert all[1..][|w| - 1] == last;
      assert all[n..] == w[n..] + [last];
      LastAssistantCallsNothing(w[n..], text, calls);
      assert all[1..] == w[1..] + [last];
      if w[0].AssistantWire? {
        AnsweredBefore(w[1..], last, w[0].calls);
      }
    }
  }

  lemma SerializableAppend(a: seq<Message>, b: seq<Message>)
    ensures Serializable(a + b) <==> Serializable(a) && Serializable(b)
  {
    assert forall i | 0 <= i < |b| :: b[i] == (a + b)[|a| + i];
    assert forall i | 0 <= i < |a| :: a[i] == (a + b)[i];
  }

  /** After a message that absorbs nothing, the rest serializes by itself. */
  lemma {:induction false} WireOfSplit(a: seq<Message>, b: seq<Message>)
    requires a != [] ==> a[|a| - 1].role != Assistant && a[|a| - 1].role != Toolcall
    ensures WireOf(a + b) == WireOf(a) + WireOf(b)
  {
    hide Prepend;
    if a == [] {
      assert a + b == b;
    } else {
      WireOfSplit(a[1..], b);
      var whole, tail := a + b, a[1..];
      assert whole[0] == a[0] && whole[1..] == tail + b;
      if tail == [] {
        LastAbsorbsNothing(a[0], b);
        assert a == [a[0]];
        assert whole == [a[0]] + b;
      } else {
        assert StartsWithToolcall(tail + b) == StartsWithToolcall(tail);
        PrependAppend(a[0], StartsWithToolcall(tail), WireOf(tail), WireOf(b));
      }
    }
  }

  lemma LastAbsorbsNothing(m: Message, b: seq<Message>)
    requires m.role != Assistant && m.role != Toolcall
    ensures WireOf([m] + b) == WireOf([m]) + WireOf(b)
  {
    assert ([m] + b)[1..] == b && [m][1..] == [];
  }

  lemma PlainWire(m: Message)
    requires Plain(m)
    ensures WellPaired(WireOf([m])) && Serializable([m])
  {
    assert [m][1..] == [];
    var w := WireOf([m]);
    assert |w| == 1;
    assert w[1..] == [];
  }

  /** A plain message keeps a history ready. */
  lemma PlainKeepsReady(h: seq<Message>, m: Message)
    requires Ready(h) && Plain(m)
    ensures Ready(h + [m])
  {
    hide WireOf, WellPaired, Serializable;
    PlainWire(m);
    WireOfAppend(h, [m]);
    PairedPrefix(WireOf(h), WireOf([m]));
    SerializableAppend(h, [m]);
  }

  /** Plain messages alone are always ready: so is a history right after a rewrite. */
  lemma {:induction false} PlainIsReady(h: seq<Message>)
    requires forall i | 0 <= i < |h| :: Plain(h[i])
    ensures Ready(h)
  {
    hide WireOf, WellPaired, Serializable;
    if h == [] {
      NothingToSend();
      assert WellPaired([]) by { EmptyIsPaired(); }
    } else {
      var front := h[..|h| - 1];
      PlainIsReady(front);
      PlainKeepsReady(front, h[|h| - 1]);
      assert front + [h[|h| - 1]] == h;
    }
  }

  lemma EmptyIsPaired()
    ensures WellPaired([])
  {
  }

  lemma ReadyIsPaired(h: seq<Message>)
    requires Ready(h)
    ensures Serializable(h) && WellPaired(WireOf(h))
  {
  }

  // ---- Histories that only a rewrite mends ----------------------------------------------------

  /** However it goes on, the history cannot be sent. */
  ghost predicate Hopeless(h: seq<Message>) {
    forall rest: seq<Message> :: !WellPaired(WireOf(h + rest))
  }

  /** A torn history cannot be sent until it is rewritten; any other can. */
  ghost predicate Standing(torn: bool, h: seq<Message>) {
    Serializable(h) && if torn then Hopeless(h) else Ready(h)
  }

  lemma StandingDecides(torn: bool, h: seq<Message>)
    requires Standing(torn, h)
    ensures Serializable(h) && (WellPaired(WireOf(h)) <==> !torn)
  {
    hide WireOf, WellPaired;
    assert h + [] == h;
  }

  lemma StandingOfReady(h: seq<Message>)
    requires Ready(h)
    ensures Standing(false, h)
  {
  }

  lemma HopelessStays(h: seq<Message>, more: seq<Message>)
    requires Hopeless(h)
    ensures Hopeless(h + more)
  {
    hide WireOf, WellPaired;
    forall rest: seq<Message> ensures !WellPaired(WireOf(h + more + rest)) {
      assert h + more + rest == h + (more + rest);
    }
  }

  /** A plain message neither tears nor mends a history. */
  lemma PlainKeepsStanding(torn: bool, h: seq<Message>, m: Message)
    requires Standing(torn, h) && Plain(m)
    ensures Standing(torn, h + [m])
  {
    hide WireOf, WellPaired, Hopeless;
    if torn {
      HopelessStays(h, [m]);
      SerializableAppend(h, [m]);
    } else {
      PlainKeepsReady(h, m);
      ReadyIsPaired(h + [m]);
    }
  }

  /** The history of a thread that nothing was said in yet is not torn. */
  lemma EmptyIsNotTorn(torn: bool)
    requires Standing(torn, [])
    ensures !torn
  {
    hide WireOf;
    StandingDecides(torn, []);
    NothingToSend();
    EmptyIsPaired();
  }

  // ---- A whole batch -------------------------------------------------------------------------

  lemma {:induction false} CallMessagesAre(calls: seq<ToolCall>)
    ensures AllToolcalls(CallMessages(calls)) && |CallMessages(calls)| == |calls|
    ensures CallsOf(CallMessages(calls)) == calls
  {
    if calls != [] {
      CallMessagesAre(calls[1..]);
      assert [calls[0]] + calls[1..] == calls;
    }
  }

  lemma {:induction false} ResultsWire(results: seq<Message>, calls: seq<ToolCall>)
    requires AnswersAll(results, calls)
    ensures |WireOf(results)| == |calls| && ToolsAnswer(WireOf(results), calls)
  {
    if results != [] {
      ResultsWire(results[1..], calls[1..]);
      var w, tail := WireOf(results), WireOf(results[1..]);
      assert w[0].ToolWire? && w[1..] == tail;
      forall i | 0 <= i < |calls| ensures w[i].ToolWire? && w[i].toolCallId == Some(calls[i].id) {
        if i > 0 {
          assert w[i] == tail[i - 1] && calls[1..][i - 1] == calls[i];
        }
      }
    }
  }

  /** The calls of one batch become one assistant message, which takes in the text right before them. */
  lemma BatchWire(text: Option<string>, calls: seq<ToolCall>, more: seq<Message>)
    requires calls != [] && !StartsWithToolcall(more)
    ensures WireOf(CallMessages(calls) + more) == [AssistantWire(None, calls)] + WireOf(more)
    ensures AssistantThen(text, [], CallMessages(calls) + more) == [AssistantWire(text, calls)] + WireOf(more)
  {
    hide WireOf, CallMessages, CallsOf;
    CallMessagesAre(calls);
    RunIsOneMessage(CallMessages(calls), more);
    RunAbsorbs(text, [], CallMessages(calls), more);
    assert [] + calls == calls;
  }

  /** Where a batch starts in the request for a ready history: after a paired part, as one message. */
  lemma BatchAfterReady(h: seq<Message>, calls: seq<ToolCall>, more: seq<Message>)
    returns (before: seq<Wire>, text: Option<string>)
    requires Ready(h) && calls != [] && !StartsWithToolcall(more)
    ensures WellPaired(before)
    ensures WireOf(h + (CallMessages(calls) + more)) == before + ([AssistantWire(text, calls)] + WireOf(more))
  {
    hide WireOf, WellPaired, Serializable, CallMessages;
    var batch := CallMessages(calls) + more;
    if h != [] && h[|h| - 1].role == Assistant {
      var front, a := h[..|h| - 1], h[|h| - 1];
      assert h == front + [a] && h + batch == front + ([a] + batch);
      before, text := WireOf(front), WireText(a.content);
      AssistantBefore(a, batch);
      AssistantBefore(a, []);
      assert [a] + [] == [a];
      WireOfAppend(front, [a]);
      WireOfAppend(front, [a] + batch);
      LastAssistantCallsNothing(before, text, a.toolCalls);
      BatchWire(text, calls, more);
    } else {
      before, text := WireOf(h), None;
      WireOfSplit(h, batch);
      BatchWire(None, calls, more);
    }
  }

  /** Exactly what must follow the calls of a batch for the request to be paired. */
  lemma BatchPairing(h: seq<Message>, calls: seq<ToolCall>, more: seq<Message>)
    requires Ready(h) && calls != [] && !StartsWithToolcall(more)
    ensures WellPaired(WireOf(h + (CallMessages(calls) + more)))
       <==> ToolsAnswer(WireOf(more), calls) && WellPaired(WireOf(more)[|calls|..])
  {
    hide *;
    var before, text := BatchAfterReady(h, calls, more);
    PairedPrefix(before, [AssistantWire(text, calls)] + WireOf(more));
    HeadBatch(text, calls, WireOf(more));
  }

  lemma HeadBatch(text: Option<string>, calls: seq<ToolCall>, w: seq<Wire>)
    ensures ToolsAnswer(w, calls) ==> |calls| <= |w|
    ensures WellPaired([AssistantWire(text, calls)] + w) <==> ToolsAnswer(w, calls) && WellPaired(w[|calls|..])
  {
    var all := [AssistantWire(text, calls)] + w;
    assert all[1..] == w;
    if ToolsAnswer(w, calls) {
      assert all[1 + |calls|..] == w[|calls|..];
    }
  }

  /** A batch that ran to its end keeps a history ready, even one that ends in assistant text. */
  lemma BatchKeepsReady(h: seq<Message>, after: seq<Message>, calls: seq<ToolCall>)
    requires Ready(h) && calls != [] && AddsBatch(h, after, calls)
    ensures Ready(after)
  {
    hide WireOf, WellPaired, Serializable, CallMessages;
    var n := |h| + |CallMessages(calls)|;
    var results := after[n..];
    assert |h + CallMessages(calls)| == n;
    assert after == h + (CallMessages(calls) + results);
    assert after[|after| - 1] == results[|results| - 1];
    ResultsWire(results, calls);
    assert WireOf(results)[|calls|..] == [];
    EmptyIsPaired();
    BatchPairing(h, calls, results);
    SerializableAppend(h, CallMessages(calls) + results);
    SerializableAppend(CallMessages(calls), results);
    CallMessagesAre(calls);
    CallsSerializable(CallMessages(calls));
    ResultsSerializable(results, calls);
  }

  lemma CallsSerializable(run: seq<Message>)
    requires AllToolcalls(run)
    ensures Serializable(run)
  {
  }

  lemma ResultsSerializable(results: seq<Message>, calls: seq<ToolCall>)
    requires AnswersAll(results, calls)
    ensures Serializable(results)
  {
  }

  lemma AssistantBefore(a: Message, rest: seq<Message>)
    requires a.role == Assistant
    ensures WireOf([a] + rest) == AssistantThen(WireText(a.content), a.toolCalls, rest)
    ensures rest == [] ==> WireOf([a] + rest) == [AssistantWire(WireText(a.content), a.toolCalls)]
  {
    assert ([a] + rest)[1..] == rest;
  }

  // ---- Batches that break the rule -----------------------------------------------------------

  /**
   * A batch that stopped after fewer answers than calls, whether or not all its calls were
   * announced, is never paired once another plain message follows.
   */
  lemma UnansweredCallsBreakPairing(h: seq<Message>, calls: seq<ToolCall>,
      results: seq<Message>, m: Message, rest: seq<Message>)
    requires Ready(h) && |results| < |calls| && AnswersAll(results, calls[..|results|]) && Plain(m)
    ensures !WellPaired(WireOf(h + (CallMessages(calls) + (results + ([m] + rest)))))
  {
    hide WireOf, CallMessages, WellPaired;
    var more := results + ([m] + rest);
    assert !StartsWithToolcall(more);
    BatchPairing(h, calls, more);
    WireOfSplit(results, [m] + rest);
    ResultsWire(results, calls[..|results|]);
    PlainFirst(m, rest);
    assert !WireOf(more)[|results|].ToolWire?;
  }

  lemma PlainFirst(m: Message, rest: seq<Message>)
    requires Plain(m)
    ensures WireOf([m] + rest) != [] && !WireOf([m] + rest)[0].ToolWire?
  {
    assert ([m] + rest)[0] == m;
  }

  /**
   * A rewrite inside a batch removes the calls that the batch's results still answer: what the
   * loop appends next can no longer be sent.
   */
  lemma RewriteInsideBatchBreaksPairing(h: seq<Message>, summary: string, result: Message, rest: seq<Message>)
    requires result.role == ToolResult
    ensures !WellPaired(WireOf(Systems(h) + CompactedMessages(summary) + ([result] + rest)))
  {
    hide WireOf;
    var rewritten := Systems(h) + CompactedMessages(summary);
    assert rewritten[|rewritten| - 1].role == User;
    WireOfSplit(rewritten, [result] + rest);
    RewrittenIsReady(h, summary);
    PairedPrefix(WireOf(rewritten), WireOf([result] + rest));
    ToolFirst(result, rest);
  }

  lemma ToolFirst(m: Message, rest: seq<Message>)
    requires m.role == ToolResult
    ensures WireOf([m] + rest) != [] && WireOf([m] + rest)[0].ToolWire?
  {
    assert ([m] + rest)[0] == m;
  }

  lemma {:induction false} SystemsArePlain(h: seq<Message>)
    ensures forall i | 0 <= i < |Systems(h)| :: Systems(h)[i].role == System
  {
    if h != [] {
      SystemsArePlain(h[1..]);
    }
  }

  /** Whatever the history was, the one that a rewrite leaves is ready. */
  lemma RewrittenIsReady(h: seq<Message>, summary: string)
    ensures Ready(Systems(h) + CompactedMessages(summary))
  {
    hide WireOf, WellPaired, Serializable, Systems;
    SystemsArePlain(h);
    PlainIsReady(Systems(h) + CompactedMessages(summary));
  }
}
