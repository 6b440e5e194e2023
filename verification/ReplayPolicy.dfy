/**
 * The replay policy (packages/ai/src/replay-policy.ts): a function from a history to the messages
 * that are sent, and the single pass that computes it.
 */
module ReplayPolicy {
  import opened Prelude

  // ----- Data model

  datatype ToolCall = ToolCall(id: string, name: string)
  datatype Block = Content(raw: string) | Call(call: ToolCall)
  datatype StopReason = Stop | Length | ToolUse | Error | Aborted

  datatype Turn = Turn(content: seq<Block>, stopReason: StopReason, timestamp: int, rest: string)

  datatype Message =
    | User(text: string)
    | Assistant(turn: Turn)
    | ToolResult(toolCallId: string, toolName: string, content: string, isError: bool, timestamp: int)

  /** `createRejectedToolCallFeedback`: the user message that stands in for a dropped turn, if any. */
  type Feedback = Turn -> Option<string>

  predicate FailedTurn(t: Turn) {
    t.stopReason.Error? || t.stopReason.Aborted?
  }

  predicate Failed(m: Message) {
    m.Assistant? && FailedTurn(m.turn)
  }

  /** The calls of a turn, in order. */
  function Calls(content: seq<Block>): seq<ToolCall> {
    if content == [] then []
    else (if content[0].Call? then [content[0].call] else []) + Calls(content[1..])
  }

  predicate Asks(calls: seq<ToolCall>, id: string) {
    exists i :: 0 <= i < |calls| && calls[i].id == id
  }

  function Synthetic(call: ToolCall, timestamp: int): Message {
    ToolResult(call.id, call.name, "No result provided", true, timestamp)
  }

  // ----- The policy, turn by turn

  /** How many tool results a history starts with. */
  function Leading(ms: seq<Message>): (n: nat)
    ensures n <= |ms|
    ensures forall i :: 0 <= i < n ==> ms[i].ToolResult?
    ensures n < |ms| ==> !ms[n].ToolResult?
  {
    if ms == [] || !ms[0].ToolResult? then 0 else 1 + Leading(ms[1..])
  }

  predicate Answered(rs: seq<Message>, id: string) {
    exists i :: 0 <= i < |rs| && rs[i].ToolResult? && rs[i].toolCallId == id
  }

  /** Of the results after a turn: those that answer one of its calls first. */
  function Kept(calls: seq<ToolCall>, rs: seq<Message>): seq<Message> {
    if rs == [] then [] else
    var n := |rs| - 1;
    var r := rs[n];
    Kept(calls, rs[..n])
    + if r.ToolResult? && Asks(calls, r.toolCallId) && !Answered(rs[..n], r.toolCallId) then [r] else []
  }

  /** The calls of a turn that none of the results after it answers. */
  function Unanswered(calls: seq<ToolCall>, rs: seq<Message>): seq<ToolCall> {
    Filter(calls, (c: ToolCall) => !Answered(rs, c.id))
  }

  function Synthesized(calls: seq<ToolCall>, timestamp: int): (r: seq<Message>)
    ensures |r| == |calls|
    ensures forall i :: 0 <= i < |r| ==> r[i] == Synthetic(calls[i], timestamp)
  {
    if calls == [] then [] else [Synthetic(calls[0], timestamp)] + Synthesized(calls[1..], timestamp)
  }

  /** The results that follow a completed turn. */
  function TurnResults(t: Turn, rs: seq<Message>): seq<Message> {
    Kept(Calls(t.content), rs) + Synthesized(Unanswered(Calls(t.content), rs), t.timestamp)
  }

  /** What becomes of a user or assistant message and the results directly after it. */
  function Segment(f: Feedback, head: Message, rs: seq<Message>): seq<Message> {
    match head
    case Assistant(t) =>
      if !FailedTurn(t) then [head] + TurnResults(t, rs)
      else if f(t).Some? then [User(f(t).value)] else []
    case _ => [head]
  }

  /** The policy: results without a turn before them go, and every other message is replayed with its results. */
  function Replay(f: Feedback, ms: seq<Message>): seq<Message>
    decreases |ms|
  {
    if ms == [] then []
    else if ms[0].ToolResult? then Replay(f, ms[1..])
    else
      var n := Leading(ms[1..]);
      Segment(f, ms[0], ms[1..1 + n]) + Replay(f, ms[1 + n..])
  }

  // ----- Cutting the history

  lemma {:induction false} LeadingConcat(a: seq<Message>, b: seq<Message>)
    requires b == [] || !b[0].ToolResult?
    ensures Leading(a + b) == Leading(a)
  {
    if a == [] {
      assert a + b == b;
    } else if a[0].ToolResult? {
      assert (a + b)[1..] == a[1..] + b;
      LeadingConcat(a[1..], b);
    }
  }

  lemma {:induction false} DropConcat<T>(a: seq<T>, b: seq<T>, k: nat)
    requires k <= |a|
    ensures (a + b)[k..] == a[k..] + b
  {
  }

  /** What follows the first message and its results. */
  function AfterHead(ms: seq<Message>): (r: seq<Message>)
    requires ms != []
    ensures |r| < |ms|
  {
    ms[1 + Leading(ms[1..])..]
  }

  function HeadSegment(f: Feedback, ms: seq<Message>): seq<Message>
    requires ms != []
  {
    Segment(f, ms[0], ms[1..1 + Leading(ms[1..])])
  }

  lemma {:induction false} ReplayHead(f: Feedback, ms: seq<Message>)
    requires ms != [] && !ms[0].ToolResult?
    ensures Replay(f, ms) == HeadSegment(f, ms) + Replay(f, AfterHead(ms))
  {
  }

  lemma {:induction false} ConcatHead(f: Feedback, a: seq<Message>, b: seq<Message>)
    requires a != [] && (b == [] || !b[0].ToolResult?)
    ensures HeadSegment(f, a + b) == HeadSegment(f, a)
    ensures AfterHead(a + b) == AfterHead(a) + b && (a + b)[0] == a[0]
  {
    var n := Leading(a[1..]);
    DropConcat(a, b, 1);
    LeadingConcat(a[1..], b);
    DropConcat(a, b, 1 + n);
    assert (a + b)[1..1 + n] == a[1..1 + n];
  }

  lemma {:induction false} ConcatNothing(f: Feedback, a: seq<Message>, b: seq<Message>)
    requires a == []
    ensures Replay(f, a + b) == Replay(f, a) + Replay(f, b)
  {
    assert a + b == b;
    assert Replay(f, a) == [];
    assert [] + Replay(f, b) == Replay(f, b);
  }

  lemma {:induction false} ConcatOrphan(f: Feedback, a: seq<Message>, b: seq<Message>)
    requires a != [] && a[0].ToolResult? && Replay(f, a[1..] + b) == Replay(f, a[1..]) + Replay(f, b)
    ensures Replay(f, a + b) == Replay(f, a) + Replay(f, b)
  {
    DropConcat(a, b, 1);
  }

  lemma {:induction false} ConcatTurn(f: Feedback, a: seq<Message>, b: seq<Message>)
    requires a != [] && !a[0].ToolResult? && (b == [] || !b[0].ToolResult?)
    requires Replay(f, AfterHead(a) + b) == Replay(f, AfterHead(a)) + Replay(f, b)
    ensures Replay(f, a + b) == Replay(f, a) + Replay(f, b)
  {
    ConcatHead(f, a, b);
    ReplayHead(f, a);
    ReplayHead(f, a + b);
    Assoc(HeadSegment(f, a), Replay(f, AfterHead(a)), Replay(f, b));
  }

  /** Cutting before any user or assistant message composes. */
  lemma {:induction false} ReplayConcat(f: Feedback, a: seq<Message>, b: seq<Message>)
    requires b == [] || !b[0].ToolResult?
    ensures Replay(f, a + b) == Replay(f, a) + Replay(f, b)
    decreases |a|
  {
    if a == [] {
      ConcatNothing(f, a, b);
    } else if a[0].ToolResult? {
      ReplayConcat(f, a[1..], b);
      ConcatOrphan(f, a, b);
    } else {
      var rest := AfterHead(a);
      ReplayConcat(f, rest, b);
      ConcatTurn(f, a, b);
    }
  }

  /** Appending from a user or assistant message on never rewrites the earlier output. */
  lemma {:induction false} ReplayNeverRewrites(f: Feedback, a: seq<Message>, b: seq<Message>)
    requires b == [] || !b[0].ToolResult?
    ensures Replay(f, a) <= Replay(f, a + b)
  {
    ReplayConcat(f, a, b);
  }

  lemma {:induction false} LeadingAll(rs: seq<Message>)
    requires forall i :: 0 <= i < |rs| ==> rs[i].ToolResult?
    ensures Leading(rs) == |rs|
  {
    if rs != [] { LeadingAll(rs[1..]); }
  }

  /** One message and the results after it. */
  lemma {:induction false} ReplaySegment(f: Feedback, head: Message, rs: seq<Message>)
    requires !head.ToolResult? && forall i :: 0 <= i < |rs| ==> rs[i].ToolResult?
    ensures Replay(f, [head] + rs) == Segment(f, head, rs)
  {
    var ms := [head] + rs;
    assert ms[1..] == rs && ms[0] == head;
    LeadingAll(rs);
    assert ms[1..1 + |rs|] == rs && ms[1 + |rs|..] == [];
    assert Replay(f, []) == [];
    assert Replay(f, ms) == Segment(f, head, rs) + Replay(f, []);
  }

  lemma {:induction false} ReplayOrphans(f: Feedback, rs: seq<Message>)
    requires forall i :: 0 <= i < |rs| ==> rs[i].ToolResult?
    ensures Replay(f, rs) == []
  {
    if rs != [] { ReplayOrphans(f, rs[1..]); }
  }

  // ----- The loop

  lemma {:induction false} SynthesizedNext(calls: seq<ToolCall>, n: nat, open: ToolCall -> bool, timestamp: int)
    requires n < |calls|
    ensures var rest := Synthesized(Filter(calls[n + 1..], open), timestamp);
            Synthesized(Filter(calls[n..], open), timestamp) ==
            if open(calls[n]) then [Synthetic(calls[n], timestamp)] + rest else rest
  {
    assert calls[n..][0] == calls[n] && calls[n..][1..] == calls[n + 1..];
    var rest := Filter(calls[n + 1..], open);
    if open(calls[n]) {
      assert Filter(calls[n..], open) == [calls[n]] + rest;
      assert ([calls[n]] + rest)[1..] == rest;
    }
  }

  /** `insertSyntheticToolResults` */
  method InsertSynthetic(result: seq<Message>, calls: seq<ToolCall>, timestamp: int, existing: set<string>)
    returns (r: seq<Message>)
    ensures r == result + Synthesized(Filter(calls, (c: ToolCall) => c.id !in existing), timestamp)
  {
    r := result;
    ghost var open := (c: ToolCall) => c.id !in existing;
    ghost var goal := result + Synthesized(Filter(calls, open), timestamp);
    for n := 0 to |calls|
      invariant r + Synthesized(Filter(calls[n..], open), timestamp) == goal
    {
      SynthesizedNext(calls, n, open, timestamp);
      if calls[n].id !in existing {
        Assoc(r, [Synthetic(calls[n], timestamp)], Synthesized(Filter(calls[n + 1..], open), timestamp));
        r := r + [Synthetic(calls[n], timestamp)];
      }
    }
  }

  /** The ids a turn's results have answered so far. */
  ghost predicate Tracks(calls: seq<ToolCall>, existing: set<string>, rs: seq<Message>) {
    forall i :: 0 <= i < |calls| ==> (calls[i].id in existing <==> Answered(rs, calls[i].id))
  }

  lemma {:induction false} TracksUnanswered(calls: seq<ToolCall>, existing: set<string>, rs: seq<Message>)
    requires Tracks(calls, existing, rs)
    ensures Filter(calls, (c: ToolCall) => c.id !in existing) == Unanswered(calls, rs)
  {
    FilterSame(calls, (c: ToolCall) => c.id !in existing, (c: ToolCall) => !Answered(rs, c.id));
  }

  /** The message the loop stands after, and the results since; before any message, nothing. */
  datatype Position = Position(before: seq<Message>, head: Option<Message>, rs: seq<Message>)

  /** What the loop's variables mean at a position. */
  ghost predicate At(f: Feedback, p: Position, result: seq<Message>, calls: seq<ToolCall>, timestamp: int,
      existing: set<string>) {
    && (forall i :: 0 <= i < |p.rs| ==> p.rs[i].ToolResult?)
    && Tracks(calls, existing, p.rs)
    && match p.head
       case None => p.before == [] && result == [] && calls == []
       case Some(head) =>
         && !head.ToolResult?
         && if head.Assistant? && !FailedTurn(head.turn)
            then calls == Calls(head.turn.content) && (calls != [] ==> timestamp == head.turn.timestamp)
                 && result == Replay(f, p.before) + [head] + Kept(calls, p.rs)
            else calls == [] && result == Replay(f, p.before) + Segment(f, head, p.rs)
  }

  function Prefix(p: Position): seq<Message> {
    p.before + (if p.head.Some? then [p.head.value] else []) + p.rs
  }

  lemma {:induction false} PrefixSnoc(p: Position, m: Message)
    ensures Prefix(p.(rs := p.rs + [m])) == Prefix(p) + [m]
    ensures Prefix(Position(Prefix(p), Some(m), [])) == Prefix(p) + [m]
  {
  }

  lemma {:induction false} AtMeans(f: Feedback, p: Position, result: seq<Message>, calls: seq<ToolCall>,
      timestamp: int, existing: set<string>)
    requires At(f, p, result, calls, timestamp, existing)
    ensures result + Synthesized(Filter(calls, (c: ToolCall) => c.id !in existing), timestamp) == Replay(f, Prefix(p))
  {
    TracksUnanswered(calls, existing, p.rs);
    if p.head.None? {
      ReplayOrphans(f, p.rs);
      assert Prefix(p) == p.rs;
    } else {
      PrefixReplay(f, p);
      var head := p.head.value;
      if head.Assistant? && !FailedTurn(head.turn) {
        Completed(Replay(f, p.before), head, p.rs, calls, timestamp);
      }
    }
  }

  lemma {:induction false} PrefixReplay(f: Feedback, p: Position)
    requires p.head.Some? && !p.head.value.ToolResult? && forall i :: 0 <= i < |p.rs| ==> p.rs[i].ToolResult?
    ensures Replay(f, Prefix(p)) == Replay(f, p.before) + Segment(f, p.head.value, p.rs)
  {
    Assoc(p.before, [p.head.value], p.rs);
    ReplayConcat(f, p.before, [p.head.value] + p.rs);
    ReplaySegment(f, p.head.value, p.rs);
  }

  lemma {:induction false} Completed(before: seq<Message>, head: Message, rs: seq<Message>, calls: seq<ToolCall>,
      timestamp: int)
    requires head.Assistant? && calls == Calls(head.turn.content) && (calls != [] ==> timestamp == head.turn.timestamp)
    ensures before + [head] + Kept(calls, rs) + Synthesized(Unanswered(calls, rs), timestamp) ==
        before + ([head] + TurnResults(head.turn, rs))
  {
    assert Synthesized(Unanswered(calls, rs), timestamp) == Synthesized(Unanswered(calls, rs), head.turn.timestamp);
  }

  lemma {:induction false} KeptNone(calls: seq<ToolCall>)
    ensures Kept(calls, []) == [] && Tracks(calls, {}, [])
  {
  }

  /** After a user or assistant message the loop stands at it, with none of its results seen. */
  lemma {:induction false} HeadStep(f: Feedback, before: seq<Message>, head: Message, timestamp: int)
    requires !head.ToolResult?
    ensures var completed := head.Assistant? && !FailedTurn(head.turn);
            var calls := if completed then Calls(head.turn.content) else [];
            var result := Replay(f, before) + if completed then [head] else Segment(f, head, []);
            At(f, Position(before, Some(head), []), result, calls,
               if calls != [] then head.turn.timestamp else timestamp, {})
  {
    if head.Assistant? {
      KeptNone(Calls(head.turn.content));
      assert Replay(f, before) + [head] + [] == Replay(f, before) + [head];
    }
  }

  /** A tool result either answers a pending call first, or changes nothing. */
  lemma {:induction false} ResultStep(f: Feedback, p: Position, m: Message, result: seq<Message>, calls: seq<ToolCall>,
      timestamp: int, existing: set<string>)
    requires At(f, p, result, calls, timestamp, existing) && m.ToolResult?
    ensures var answers := m.toolCallId !in existing && Asks(calls, m.toolCallId);
            At(f, p.(rs := p.rs + [m]), if answers then result + [m] else result, calls, timestamp,
               if answers then existing + {m.toolCallId} else existing)
  {
    var rs := p.rs + [m];
    assert rs[..|p.rs|] == p.rs;
    AnsweredSnoc(p.rs, m);
    var answers := m.toolCallId !in existing && Asks(calls, m.toolCallId);
    if Asks(calls, m.toolCallId) {
      var i :| 0 <= i < |calls| && calls[i].id == m.toolCallId;
      assert calls[i].id in existing <==> Answered(p.rs, calls[i].id);
    }
    assert Kept(calls, rs) == Kept(calls, p.rs) + if answers then [m] else [];
    assert Tracks(calls, if answers then existing + {m.toolCallId} else existing, rs);
  }

  /** The part of the pass that appends a user or assistant message, after the synthetic results before it. */
  method AppendHead(f: Feedback, ghost before: seq<Message>, message: Message, result: seq<Message>, timestamp: int)
    returns (appended: seq<Message>, calls: seq<ToolCall>, pendingTimestamp: int)
    requires !message.ToolResult? && result == Replay(f, before)
    ensures At(f, Position(before, Some(message), []), appended, calls, pendingTimestamp, {})
  {
    HeadStep(f, before, message, timestamp);
    appended, calls, pendingTimestamp := result, [], timestamp;
    if message.User? {
      appended := result + [message];
    } else if FailedTurn(message.turn) {
      var feedback := f(message.turn);
      appended := result + if feedback.Some? then [User(feedback.value)] else [];
    } else {
      var toolCalls := Calls(message.turn.content);
      if |toolCalls| > 0 {
        calls, pendingTimestamp := toolCalls, message.turn.timestamp;
      }
      appended := result + [message];
    }
  }

  /** The source's one pass over the messages. */
  method ApplyReplayPolicy(f: Feedback, messages: seq<Message>) returns (result: seq<Message>)
    ensures result == Replay(f, messages)
  {
    result := [];
    var pendingToolCalls: seq<ToolCall>, pendingTimestamp, existing: set<string> := [], 0, {};
    ghost var p := Position([], None, []);
    for n := 0 to |messages|
      invariant Prefix(p) == messages[..n]
      invariant At(f, p, result, pendingToolCalls, pendingTimestamp, existing)
    {
      var message := messages[n];
      assert messages[..n + 1] == messages[..n] + [message];
      PrefixSnoc(p, message);
      if message.ToolResult? {
        ResultStep(f, p, message, result, pendingToolCalls, pendingTimestamp, existing);
        var answersPendingCall := message.toolCallId !in existing && Asks(pendingToolCalls, message.toolCallId);
        p := p.(rs := p.rs + [message]);
        if answersPendingCall {
          existing := existing + {message.toolCallId};
          result := result + [message];
        }
      } else {
        AtMeans(f, p, result, pendingToolCalls, pendingTimestamp, existing);
        result := InsertSynthetic(result, pendingToolCalls, pendingTimestamp, existing);
        existing := {};
        result, pendingToolCalls, pendingTimestamp := AppendHead(f, Prefix(p), message, result, pendingTimestamp);
        p := Position(Prefix(p), Some(message), []);
      }
    }
    assert messages[..|messages|] == messages;
    AtMeans(f, p, result, pendingToolCalls, pendingTimestamp, existing);
    result := InsertSynthetic(result, pendingToolCalls, pendingTimestamp, existing);
  }

  lemma {:induction false} AnsweredSnoc(rs: seq<Message>, r: Message)
    requires r.ToolResult?
    ensures forall id :: Answered(rs + [r], id) <==> Answered(rs, id) || r.toolCallId == id
  {
    forall id ensures Answered(rs + [r], id) <==> Answered(rs, id) || r.toolCallId == id {
      if Answered(rs, id) {
        var i :| 0 <= i < |rs| && rs[i].ToolResult? && rs[i].toolCallId == id;
        assert (rs + [r])[i] == rs[i];
      }
      if r.toolCallId == id { assert (rs + [r])[|rs|] == r; }
    }
  }
}
