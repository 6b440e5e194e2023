/** What the replay policy means: the transcripts it accepts, what it keeps, and exactly when it is idempotent. */
module ReplayMeaning {
  import opened Prelude
  import opened ReplayPolicy

  function CallsOf(m: Message): seq<ToolCall> {
    if m.Assistant? then Calls(m.turn.content) else []
  }

  ghost predicate DistinctCalls(calls: seq<ToolCall>) {
    forall i, j :: 0 <= i < j < |calls| ==> calls[i].id != calls[j].id
  }

  /** The results answer the calls: each call has a result, and each result answers a call no other one answers. */
  ghost predicate ExactlyAnswered(calls: seq<ToolCall>, rs: seq<Message>) {
    && (forall i :: 0 <= i < |rs| ==> rs[i].ToolResult? && Asks(calls, rs[i].toolCallId))
    && (forall i, j :: 0 <= i < j < |rs| ==> rs[i].toolCallId != rs[j].toolCallId)
    && (forall i :: 0 <= i < |calls| ==> Answered(rs, calls[i].id))
  }

  /** A transcript a provider accepts: no failed turn, and every turn's calls directly followed by their results. */
  ghost predicate Replayable(ms: seq<Message>)
    decreases |ms|
  {
    ms == [] ||
    (&& !ms[0].ToolResult? && !Failed(ms[0])
     && var n := Leading(ms[1..]);
        ExactlyAnswered(CallsOf(ms[0]), ms[1..1 + n]) && Replayable(ms[1 + n..]))
  }

  /** No completed turn leaves two calls with the same id unanswered. */
  ghost predicate NoRepeatedGap(ms: seq<Message>)
    decreases |ms|
  {
    ms == [] ||
    if ms[0].ToolResult? then NoRepeatedGap(ms[1..])
    else
      var n := Leading(ms[1..]);
      (!Failed(ms[0]) ==> DistinctCalls(Unanswered(CallsOf(ms[0]), ms[1..1 + n]))) && NoRepeatedGap(ms[1 + n..])
  }

  /** The call ids of every completed turn are distinct. */
  ghost predicate DistinctIds(ms: seq<Message>) {
    forall i :: 0 <= i < |ms| && ms[i].Assistant? && !Failed(ms[i]) ==> DistinctCalls(CallsOf(ms[i]))
  }

  // ----- The results of one turn

  lemma {:induction false} KeptAnswers(calls: seq<ToolCall>, rs: seq<Message>)
    ensures forall i :: 0 <= i < |Kept(calls, rs)| ==>
        Kept(calls, rs)[i].ToolResult?
        && Asks(calls, Kept(calls, rs)[i].toolCallId)
    ensures forall id :: Answered(Kept(calls, rs), id) <==> Answered(rs, id) && Asks(calls, id)
    ensures forall i, j :: 0 <= i < j < |Kept(calls, rs)| ==>
        Kept(calls, rs)[i].toolCallId != Kept(calls, rs)[j].toolCallId
    decreases |rs|
  {
    if rs != [] {
      var n := |rs| - 1;
      var r := rs[n];
      KeptAnswers(calls, rs[..n]);
      var before, after := Kept(calls, rs[..n]), Kept(calls, rs);
      assert rs == rs[..n] + [r];
      if r.ToolResult? {
        AnsweredSnoc(rs[..n], r);
        if Asks(calls, r.toolCallId) && !Answered(rs[..n], r.toolCallId) {
          assert after == before + [r];
          AnsweredSnoc(before, r);
          assert !Answered(before, r.toolCallId);
          forall i | 0 <= i < |before| ensures before[i].toolCallId != r.toolCallId {}
        } else {
          assert after == before;
        }
      } else {
        assert after == before;
        forall id ensures Answered(rs, id) <==> Answered(rs[..n], id) {
          if Answered(rs, id) {
            var i :| 0 <= i < |rs| && rs[i].ToolResult? && rs[i].toolCallId == id;
            assert rs[..n][i] == rs[i];
          }
          if Answered(rs[..n], id) {
            var i :| 0 <= i < n && rs[..n][i].ToolResult? && rs[..n][i].toolCallId == id;
            assert rs[i] == rs[..n][i];
          }
        }
      }
    }
  }

  /** Results that answer distinct calls are all kept. */
  lemma {:induction false} KeptAll(calls: seq<ToolCall>, rs: seq<Message>)
    requires forall i :: 0 <= i < |rs| ==> rs[i].ToolResult? && Asks(calls, rs[i].toolCallId)
    requires forall i, j :: 0 <= i < j < |rs| ==> rs[i].toolCallId != rs[j].toolCallId
    ensures Kept(calls, rs) == rs
    decreases |rs|
  {
    if rs != [] {
      var n := |rs| - 1;
      KeptAll(calls, rs[..n]);
      assert !Answered(rs[..n], rs[n].toolCallId);
    }
  }

  lemma {:induction false} SynthesizedAnswers(calls: seq<ToolCall>, timestamp: int, id: string)
    ensures Answered(Synthesized(calls, timestamp), id) <==> Asks(calls, id)
  {
    var s := Synthesized(calls, timestamp);
    if Asks(calls, id) {
      var i :| 0 <= i < |calls| && calls[i].id == id;
      assert s[i].toolCallId == id;
    }
  }

  lemma {:induction false} AnsweredConcat(a: seq<Message>, b: seq<Message>, id: string)
    ensures Answered(a + b, id) <==> Answered(a, id) || Answered(b, id)
  {
    if Answered(a, id) {
      var i :| 0 <= i < |a| && a[i].ToolResult? && a[i].toolCallId == id;
      assert (a + b)[i] == a[i];
    }
    if Answered(b, id) {
      var i :| 0 <= i < |b| && b[i].ToolResult? && b[i].toolCallId == id;
      assert (a + b)[|a| + i] == b[i];
    }
  }

  lemma {:induction false} UnansweredMembers(calls: seq<ToolCall>, rs: seq<Message>)
    ensures forall i :: 0 <= i < |Unanswered(calls, rs)| ==>
                          Asks(calls, Unanswered(calls, rs)[i].id) && !Answered(rs, Unanswered(calls, rs)[i].id)
  {
    var gaps := Unanswered(calls, rs);
    forall i | 0 <= i < |gaps| ensures Asks(calls, gaps[i].id) && !Answered(rs, gaps[i].id) {
      assert gaps[i] in gaps;
      assert gaps[i] in calls;
      var j :| 0 <= j < |calls| && calls[j] == gaps[i];
      assert calls[j].id == gaps[i].id;
    }
  }

  /** Every call of a completed turn has a result in the output, and every result answers one of its calls. */
  lemma {:induction false} TurnResultsAnswer(t: Turn, rs: seq<Message>)
    ensures forall i :: 0 <= i < |TurnResults(t, rs)| ==>
                          TurnResults(t, rs)[i].ToolResult? && Asks(Calls(t.content), TurnResults(t, rs)[i].toolCallId)
    ensures forall i :: 0 <= i < |Calls(t.content)| ==> Answered(TurnResults(t, rs), Calls(t.content)[i].id)
  {
    var calls := Calls(t.content);
    var kept, gaps := Kept(calls, rs), Unanswered(calls, rs);
    KeptAnswers(calls, rs);
    UnansweredMembers(calls, rs);
    forall i | 0 <= i < |calls| ensures Answered(TurnResults(t, rs), calls[i].id) {
      AnsweredConcat(kept, Synthesized(gaps, t.timestamp), calls[i].id);
      if Answered(rs, calls[i].id) {
        assert Asks(calls, calls[i].id);
      } else {
        assert calls[i] in gaps;
        var j :| 0 <= j < |gaps| && gaps[j] == calls[i];
        assert Asks(gaps, calls[i].id);
        SynthesizedAnswers(gaps, t.timestamp, calls[i].id);
      }
    }
  }

  /** They answer each call once exactly when no two unanswered calls share an id. */
  lemma {:induction false} TurnResultsExact(t: Turn, rs: seq<Message>)
    ensures ExactlyAnswered(Calls(t.content), TurnResults(t, rs)) <==> DistinctCalls(Unanswered(Calls(t.content), rs))
  {
    var gaps := Unanswered(Calls(t.content), rs);
    TurnResultsAnswer(t, rs);
    if DistinctCalls(gaps) {
      ResultsDistinct(t, rs);
      var out := TurnResults(t, rs);
      forall i, j | 0 <= i < j < |out| ensures out[i].toolCallId != out[j].toolCallId {
        assert ResultId(out, i) != ResultId(out, j);
      }
    } else {
      var i, j :| 0 <= i < j < |gaps| && gaps[i].id == gaps[j].id;
      ResultsRepeat(t, rs, i, j);
    }
  }

  lemma {:induction false} ResultsDistinct(t: Turn, rs: seq<Message>)
    requires DistinctCalls(Unanswered(Calls(t.content), rs))
    ensures forall i, j :: 0 <= i < j < |TurnResults(t, rs)| ==>
        ResultId(TurnResults(t, rs), i) != ResultId(TurnResults(t, rs), j)
  {
    var calls := Calls(t.content);
    var kept, gaps := Kept(calls, rs), Unanswered(calls, rs);
    var out := TurnResults(t, rs);
    KeptAnswers(calls, rs);
    UnansweredMembers(calls, rs);
    forall i, j | 0 <= i < j < |out| ensures ResultId(out, i) != ResultId(out, j) {
      if j >= |kept| {
        assert out[j] == Synthetic(gaps[j - |kept|], t.timestamp);
        if i < |kept| {
          assert out[i] == kept[i];
          assert Answered(kept, kept[i].toolCallId);
        }
      }
    }
  }

  function ResultId(rs: seq<Message>, i: nat): string
    requires i < |rs|
  {
    if rs[i].ToolResult? then rs[i].toolCallId else ""
  }

  lemma {:induction false} ResultsRepeat(t: Turn, rs: seq<Message>, i: nat, j: nat)
    requires var gaps := Unanswered(Calls(t.content), rs); i < j < |gaps| && gaps[i].id == gaps[j].id
    ensures !ExactlyAnswered(Calls(t.content), TurnResults(t, rs))
  {
    var calls := Calls(t.content);
    var kept, gaps, out := Kept(calls, rs), Unanswered(calls, rs), TurnResults(t, rs);
    var synth := Synthesized(gaps, t.timestamp);
    assert out[|kept| + i] == synth[i] && out[|kept| + j] == synth[j];
  }

  lemma {:induction false} TurnResultsFixed(t: Turn, rs: seq<Message>)
    requires forall i :: 0 <= i < |rs| ==> rs[i].ToolResult?
    ensures TurnResults(t, rs) == rs <==> ExactlyAnswered(Calls(t.content), rs)
  {
    var calls := Calls(t.content);
    var kept, gaps := Kept(calls, rs), Unanswered(calls, rs);
    UnansweredMembers(calls, rs);
    if ExactlyAnswered(calls, rs) {
      KeptAll(calls, rs);
      forall c | c in calls ensures Answered(rs, c.id) {
        var i :| 0 <= i < |calls| && calls[i] == c;
      }
      FilterNone(calls, (c: ToolCall) => !Answered(rs, c.id));
    }
    if TurnResults(t, rs) == rs {
      if gaps != [] {
        assert rs[|kept|] == Synthetic(gaps[0], t.timestamp);
        assert Answered(rs, gaps[0].id);
        assert false;
      }
      KeptAnswers(calls, rs);
      TurnResultsAnswer(t, rs);
    }
  }

  // ----- The output, segment by segment

  ghost predicate NoFailed(ms: seq<Message>) {
    forall i :: 0 <= i < |ms| ==> !Failed(ms[i])
  }

  lemma {:induction false} SegmentShape(f: Feedback, head: Message, rs: seq<Message>)
    requires !head.ToolResult?
    ensures NoFailed(Segment(f, head, rs))
    ensures Segment(f, head, rs) != [] ==> !Segment(f, head, rs)[0].ToolResult?
  {
    if head.Assistant? && !FailedTurn(head.turn) { TurnResultsAnswer(head.turn, rs); }
  }

  lemma {:induction false} ShapeConcat(a: seq<Message>, b: seq<Message>)
    requires NoFailed(a) && NoFailed(b) && (a == [] || !a[0].ToolResult?) && (b == [] || !b[0].ToolResult?)
    ensures NoFailed(a + b) && (a + b == [] || !(a + b)[0].ToolResult?)
  {
  }

  /** The output never starts with a result and holds no failed turn. */
  lemma {:induction false} OutputShape(f: Feedback, ms: seq<Message>)
    ensures Replay(f, ms) == [] || !Replay(f, ms)[0].ToolResult?
    ensures NoFailed(Replay(f, ms))
    decreases |ms|
  {
    if ms != [] {
      if ms[0].ToolResult? {
        OutputShape(f, ms[1..]);
      } else {
        var n := Leading(ms[1..]);
        SegmentShape(f, ms[0], ms[1..1 + n]);
        OutputShape(f, ms[1 + n..]);
        ShapeConcat(Segment(f, ms[0], ms[1..1 + n]), Replay(f, ms[1 + n..]));
      }
    }
  }

  /** How a transcript that starts with one message and its results is read. */
  lemma {:induction false} ReadSegment(head: Message, rs: seq<Message>, rest: seq<Message>)
    requires !head.ToolResult? && (forall i :: 0 <= i < |rs| ==> rs[i].ToolResult?)
    requires rest == [] || !rest[0].ToolResult?
    ensures var ms := [head] + rs + rest;
            Leading(ms[1..]) == |rs| && ms[1..1 + |rs|] == rs && ms[1 + |rs|..] == rest
  {
    var ms := [head] + rs + rest;
    assert ms[1..] == rs + rest;
    LeadingAll(rs);
    LeadingConcat(rs, rest);
  }

  lemma {:induction false} ReplayableSegment(head: Message, rs: seq<Message>, rest: seq<Message>)
    requires !head.ToolResult? && (forall i :: 0 <= i < |rs| ==> rs[i].ToolResult?)
    requires rest == [] || !rest[0].ToolResult?
    ensures Replayable([head] + rs + rest) <==> !Failed(head) && ExactlyAnswered(CallsOf(head), rs) && Replayable(rest)
  {
    ReadSegment(head, rs, rest);
  }

  lemma {:induction false} NoResultsAnswerNothing(head: Message)
    requires head.User?
    ensures ExactlyAnswered(CallsOf(head), [])
  {
  }

  lemma {:induction false} UserReplayable(head: Message, rest: seq<Message>)
    requires head.User? && (rest == [] || !rest[0].ToolResult?)
    ensures Replayable([head] + rest) <==> Replayable(rest)
  {
    assert [head] + rest == [head] + [] + rest;
    ReplayableSegment(head, [], rest);
    NoResultsAnswerNothing(head);
  }

  lemma {:induction false} SegmentReplayable(f: Feedback, head: Message, rs: seq<Message>, rest: seq<Message>)
    requires !head.ToolResult? && (rest == [] || !rest[0].ToolResult?)
    ensures Replayable(Segment(f, head, rs) + rest) <==>
            (!Failed(head) ==> DistinctCalls(Unanswered(CallsOf(head), rs))) && Replayable(rest)
  {
    if Failed(head) {
      if f(head.turn).Some? {
        UserReplayable(User(f(head.turn).value), rest);
      } else {
        assert [] + rest == rest;
      }
    } else if head.User? {
      UserReplayable(head, rest);
      FilterNone<ToolCall>([], (c: ToolCall) => !Answered(rs, c.id));
    } else {
      TurnResultsAnswer(head.turn, rs);
      TurnResultsExact(head.turn, rs);
      ReplayableSegment(head, TurnResults(head.turn, rs), rest);
    }
  }

  /** How the gaps of a history are read, turn by turn. */
  lemma {:induction false} GapHead(ms: seq<Message>)
    requires ms != [] && !ms[0].ToolResult?
    ensures NoRepeatedGap(ms) <==>
              (!Failed(ms[0]) ==> DistinctCalls(Unanswered(CallsOf(ms[0]), ms[1..1 + Leading(ms[1..])])))
              && NoRepeatedGap(AfterHead(ms))
  {
  }

  lemma {:induction false} HeadReplayable(f: Feedback, ms: seq<Message>)
    requires ms != [] && !ms[0].ToolResult? && (Replayable(Replay(f, AfterHead(ms))) <==> NoRepeatedGap(AfterHead(ms)))
    ensures Replayable(Replay(f, ms)) <==> NoRepeatedGap(ms)
  {
    OutputShape(f, AfterHead(ms));
    ReplayHead(f, ms);
    GapHead(ms);
    SegmentReplayable(f, ms[0], ms[1..1 + Leading(ms[1..])], Replay(f, AfterHead(ms)));
  }

  /** The output is a transcript a provider accepts exactly when no turn has a repeated gap. */
  lemma {:induction false} OutputReplayable(f: Feedback, ms: seq<Message>)
    ensures Replayable(Replay(f, ms)) <==> NoRepeatedGap(ms)
    decreases |ms|
  {
    if ms != [] {
      if ms[0].ToolResult? {
        OutputReplayable(f, ms[1..]);
      } else {
        OutputReplayable(f, AfterHead(ms));
        HeadReplayable(f, ms);
      }
    }
  }

  // ----- Fixed points and idempotence

  /** The histories the policy leaves alone are exactly the transcripts a provider accepts. */
  lemma {:induction false} FixedPoints(f: Feedback, ms: seq<Message>)
    ensures Replay(f, ms) == ms <==> Replayable(ms)
    decreases |ms|
  {
    if ms == [] {
    } else if ms[0].ToolResult? {
      OutputShape(f, ms);
    } else {
      var n := Leading(ms[1..]);
      var head, rs, rest := ms[0], ms[1..1 + n], ms[1 + n..];
      assert ms == [head] + rs + rest;
      FixedPoints(f, rest);
      ReplayableSegment(head, rs, rest);
      if Failed(head) {
        OutputShape(f, ms);
        assert !NoFailed(ms);
      } else if head.User? {
        FixedUser(f, head, rs, rest);
      } else {
        FixedTurn(f, head, rs, rest);
      }
    }
  }

  lemma {:induction false} FixedUser(f: Feedback, head: Message, rs: seq<Message>, rest: seq<Message>)
    requires head.User? && (forall i :: 0 <= i < |rs| ==> rs[i].ToolResult?)
    requires rest == [] || !rest[0].ToolResult?
    ensures Replay(f, [head] + rs + rest) == [head] + rs + rest <==>
            ExactlyAnswered(CallsOf(head), rs) && Replay(f, rest) == rest
  {
    ReadSegment(head, rs, rest);
    OutputShape(f, rest);
    var tail := Replay(f, rest);
    assert Replay(f, [head] + rs + rest) == [head] + [] + tail;
    if [head] + [] + tail == [head] + rs + rest { ReadSegment(head, [], tail); }
    if rs != [] { assert !Asks([], rs[0].toolCallId); }
  }

  lemma {:induction false} FixedTurn(f: Feedback, head: Message, rs: seq<Message>, rest: seq<Message>)
    requires head.Assistant? && !FailedTurn(head.turn) && (forall i :: 0 <= i < |rs| ==> rs[i].ToolResult?)
    requires rest == [] || !rest[0].ToolResult?
    ensures Replay(f, [head] + rs + rest) == [head] + rs + rest <==>
            ExactlyAnswered(CallsOf(head), rs) && Replay(f, rest) == rest
  {
    var out, tail := TurnResults(head.turn, rs), Replay(f, rest);
    ReadSegment(head, rs, rest);
    assert Replay(f, [head] + rs + rest) == [head] + out + tail;
    TurnResultsFixed(head.turn, rs);
    TurnResultsAnswer(head.turn, rs);
    OutputShape(f, rest);
    if Replay(f, [head] + rs + rest) == [head] + rs + rest {
      ReadSegment(head, out, tail);
    }
  }

  /** Applying the policy twice is applying it once exactly when no turn has a repeated gap. */
  lemma {:induction false} IdempotentIff(f: Feedback, ms: seq<Message>)
    ensures Replay(f, Replay(f, ms)) == Replay(f, ms) <==> NoRepeatedGap(ms)
  {
    FixedPoints(f, Replay(f, ms));
    OutputReplayable(f, ms);
  }

  lemma {:induction false} DistinctFilter(calls: seq<ToolCall>, p: ToolCall -> bool)
    requires DistinctCalls(calls)
    ensures DistinctCalls(Filter(calls, p))
  {
    if calls != [] {
      DistinctFilter(calls[1..], p);
      var t := Filter(calls[1..], p);
      forall j | 0 <= j < |t| ensures calls[0].id != t[j].id {
        assert t[j] in t;
        var k :| 0 <= k < |calls[1..]| && calls[1..][k] == t[j];
        assert calls[k + 1] == t[j];
      }
    }
  }

  lemma {:induction false} DistinctNoGap(ms: seq<Message>)
    requires DistinctIds(ms)
    ensures NoRepeatedGap(ms)
    decreases |ms|
  {
    if ms != [] {
      if ms[0].ToolResult? {
        DistinctNoGap(ms[1..]);
      } else {
        var n := Leading(ms[1..]);
        DistinctNoGap(ms[1 + n..]);
        if ms[0].Assistant? && !Failed(ms[0]) {
          DistinctFilter(CallsOf(ms[0]), (c: ToolCall) => !Answered(ms[1..1 + n], c.id));
        } else if ms[0].User? {
          FilterNone<ToolCall>([], (c: ToolCall) => !Answered(ms[1..1 + n], c.id));
        }
      }
    }
  }

  /** With distinct call ids in every completed turn: accepted by a provider, and idempotent. */
  lemma {:induction false} ReplayPolicyMeaning(f: Feedback, ms: seq<Message>)
    requires DistinctIds(ms)
    ensures Replayable(Replay(f, ms)) && NoFailed(Replay(f, ms))
    ensures Replay(f, Replay(f, ms)) == Replay(f, ms)
  {
    DistinctNoGap(ms);
    OutputReplayable(f, ms);
    OutputShape(f, ms);
    IdempotentIff(f, ms);
  }

  /** A turn that calls one id twice and gets no result is answered twice, and once when replayed again. */
  lemma {:induction false} RepeatedIdBreaksIdempotence(f: Feedback)
    ensures var ms := [Assistant(Turn([Call(ToolCall("a", "read")), Call(ToolCall("a", "read"))], ToolUse, 0, ""))];
            Replay(f, Replay(f, ms)) != Replay(f, ms)
  {
    var c := ToolCall("a", "read");
    var t := Turn([Call(c), Call(c)], ToolUse, 0, "");
    var ms := [Assistant(t)];
    assert t.content[1..] == [Call(c)] && t.content[1..][1..] == [];
    assert Calls(t.content[1..]) == [c];
    assert Calls(t.content) == [c, c];
    var n := Leading(ms[1..]);
    assert n == 0;
    var p := (x: ToolCall) => !Answered(ms[1..1 + n], x.id);
    FilterAll([c, c], p);
    var gaps := Unanswered(CallsOf(ms[0]), ms[1..1 + n]);
    assert gaps == [c, c];
    assert gaps[0].id == gaps[1].id;
    assert !NoRepeatedGap(ms);
    IdempotentIff(f, ms);
  }

  // ----- What is kept

  /** The user messages and turns of a history, with dropped turns replaced by their feedback. */
  function Heads(f: Feedback, ms: seq<Message>): seq<Message> {
    if ms == [] then []
    else (if ms[0].ToolResult? then []
          else if !Failed(ms[0]) then [ms[0]]
          else if f(ms[0].turn).Some? then [User(f(ms[0].turn).value)] else []) + Heads(f, ms[1..])
  }

  lemma {:induction false} HeadsConcat(f: Feedback, a: seq<Message>, b: seq<Message>)
    ensures Heads(f, a + b) == Heads(f, a) + Heads(f, b)
  {
    if a == [] {
      assert a + b == b;
    } else {
      assert (a + b)[1..] == a[1..] + b;
      HeadsConcat(f, a[1..], b);
    }
  }

  lemma {:induction false} NoHeads(f: Feedback, rs: seq<Message>)
    requires forall i :: 0 <= i < |rs| ==> rs[i].ToolResult?
    ensures Heads(f, rs) == []
  {
    if rs != [] { NoHeads(f, rs[1..]); }
  }

  lemma {:induction false} SplitSegment(ms: seq<Message>, n: nat)
    requires 1 + n <= |ms|
    ensures ms == [ms[0]] + (ms[1..1 + n] + ms[1 + n..])
  {
  }

  lemma {:induction false} HeadsStep(f: Feedback, head: Message, rs: seq<Message>, rest: seq<Message>,
      out: seq<Message>)
    requires !head.ToolResult? && (forall i :: 0 <= i < |rs| ==> rs[i].ToolResult?)
    requires Heads(f, out) == Heads(f, rest)
    ensures Heads(f, Segment(f, head, rs) + out) == Heads(f, [head] + (rs + rest))
  {
    HeadsConcat(f, Segment(f, head, rs), out);
    HeadsConcat(f, [head], rs + rest);
    HeadsConcat(f, rs, rest);
    NoHeads(f, rs);
    SegmentHeads(f, head, rs);
    assert [] + Heads(f, rest) == Heads(f, rest);
  }

  /** Every user message and every completed turn stays, in order, and nothing else appears but feedback. */
  lemma {:induction false} KeepsHeads(f: Feedback, ms: seq<Message>)
    ensures Heads(f, Replay(f, ms)) == Heads(f, ms)
    decreases |ms|
  {
    if ms != [] {
      if ms[0].ToolResult? {
        KeepsHeads(f, ms[1..]);
        assert Heads(f, ms) == [] + Heads(f, ms[1..]);
      } else {
        var n := Leading(ms[1..]);
        var head, rs, rest := ms[0], ms[1..1 + n], ms[1 + n..];
        KeepsHeads(f, rest);
        SplitSegment(ms, n);
        HeadsStep(f, head, rs, rest, Replay(f, rest));
      }
    }
  }

  lemma {:induction false} SegmentHeads(f: Feedback, head: Message, rs: seq<Message>)
    requires !head.ToolResult?
    ensures Heads(f, Segment(f, head, rs)) == Heads(f, [head])
  {
    assert [head][1..] == [];
    if head.Assistant? && !FailedTurn(head.turn) {
      TurnResultsAnswer(head.turn, rs);
      NoHeads(f, TurnResults(head.turn, rs));
      HeadsConcat(f, [head], TurnResults(head.turn, rs));
    } else if Failed(head) && f(head.turn).Some? {
      assert [User(f(head.turn).value)][1..] == [];
    }
  }
}
