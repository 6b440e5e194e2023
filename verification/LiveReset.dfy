/**
 * Re-emission: the items a host sends to rebuild its state on a client really rebuild it, and what they
 * leave behind (argument text at an index that no longer holds a tool call) is never observable.
 */
module LiveReset {
  import opened Prelude
  import opened OrderedMaps
  import opened LiveFold

  // ----- What every reachable state satisfies

  /** A tool that has not ended has no outcome yet. */
  ghost predicate ToolWf(t: Tool) {
    !t.ended ==> t.isError.None? && t.endedAt.None?
  }

  /** A call whose argument text is held is a streaming call: its arguments are the parse of that text. */
  ghost predicate ArgumentsParsed(env: Env, a: Assistant) {
    forall i :: HoldsCall(a.message.content, i) && Has(a.argsText, i) ==>
                  a.message.content[i] == StreamingToolCall(env, a.message.content[i].id, a.message.content[i].name,
                                                            Get(a.argsText, i).value)
  }

  ghost predicate AssistantWf(env: Env, a: Assistant) {
    Distinct(a.argsText) && Distinct(a.presentations) && ArgumentsParsed(env, a)
  }

  ghost predicate Wf(env: Env, s: LiveState) {
    && Distinct(s.values)
    && Distinct(s.tools)
    && (s.assistant.Some? ==> AssistantWf(env, s.assistant.value))
    && (forall e :: e in s.tools ==> ToolWf(e.1))
  }

  lemma {:induction false} DeltaKeepsWf(env: Env, a: Assistant, index: int, event: Delta)
    requires ValidEnv(env) && AssistantWf(env, a)
    ensures AssistantWf(env, ApplyAssistantDelta(env, a, index, event))
  {
    var b := ApplyAssistantDelta(env, a, index, event);
    if event.CallStart? {
      PutKeeps(a.argsText, index, "");
    } else if event.CallDelta? && Has(a.argsText, index) {
      PutKeeps(a.argsText, index, Get(a.argsText, index).value + event.argsTextDelta);
    } else if event.CallEnd? {
      RemoveKeeps(a.argsText, index);
    }
    forall i | HoldsCall(b.message.content, i) && Has(b.argsText, i)
      ensures b.message.content[i] == StreamingToolCall(env, b.message.content[i].id, b.message.content[i].name,
                                                        Get(b.argsText, i).value)
    {
      if event.CallStart? {
        GetPut(a.argsText, index, "", i);
      } else if event.CallDelta? && Has(a.argsText, index) {
        GetPut(a.argsText, index, Get(a.argsText, index).value + event.argsTextDelta, i);
      } else if event.CallEnd? {
        GetRemove(a.argsText, index, i);
      }
    }
  }

  lemma {:induction false} FoldItemKeepsWf(env: Env, s: LiveState, item: LiveItem)
    requires ValidEnv(env) && Wf(env, s)
    ensures FoldItem(env, s, item).Ok? ==> Wf(env, FoldItem(env, s, item).value)
  {
    match item
    case SetValue(key, value) => PutKeeps(s.values, key, value);
    case ClearValue(key) => RemoveKeeps(s.values, key);
    case PatchValue(key, ops) =>
      var held := Get(s.values, key);
      if held.Some? {
        var value := PatchLiveValue(env, held.value, ops);
        if value.Ok? { PutKeeps(s.values, key, value.value); }
      }
    case AssistantStart(message) =>
    case AssistantDelta(index, event) =>
      if s.assistant.Some? { DeltaKeepsWf(env, s.assistant.value, index, event); }
    case AssistantEnd =>
    case CallPresentation(id, presentation) =>
      if s.assistant.Some? { PutKeeps(s.assistant.value.presentations, id, presentation); }
    case ToolProgress(t) =>
      var tool := ApplyToolItem(env, Get(s.tools, t.toolCallId), t);
      if Has(s.tools, t.toolCallId) { GetIsMember(s.tools, t.toolCallId); }
      if tool.Ok? { PutKeeps(s.tools, t.toolCallId, tool.value); }
    case Ephemeral(_) =>
  }

  lemma {:induction false} FoldItemsKeepsWf(env: Env, s: LiveState, items: seq<LiveItem>)
    requires ValidEnv(env) && Wf(env, s)
    ensures FoldItems(env, s, items).Ok? ==> Wf(env, FoldItems(env, s, items).value)
    decreases items
  {
    if items != [] {
      FoldItemKeepsWf(env, s, items[0]);
      var next := FoldItem(env, s, items[0]);
      if next.Ok? { FoldItemsKeepsWf(env, next.value, items[1..]); }
    }
  }

  lemma {:induction false} CommitKeepsWf(env: Env, s: LiveState, commit: LiveCommit)
    requires Wf(env, s)
    ensures Wf(env, FoldLiveCommit(s, commit))
  {
    if commit.CommitTool? { RemoveKeeps(s.tools, commit.toolCallId); }
  }

  // ----- Rebuilding the parts

  lemma {:induction false} ValueItemsRebuild(env: Env, s: LiveState, values: OMap<string, LiveValue>)
    requires Distinct(s.values + values)
    ensures FoldItems(env, s, ValueItems(values)) == Ok(s.(values := s.values + values))
    decreases values
  {
    if values == [] {
      assert s.values + values == s.values;
    } else {
      var (k, v) := values[0];
      HasIsMember(s.values, k);
      forall i | 0 <= i < |s.values| ensures s.values[i].0 != k {
        assert (s.values + values)[i] == s.values[i];
        assert (s.values + values)[|s.values|] == values[0];
      }
      PutNew(s.values, k, v);
      var next := s.(values := Put(s.values, k, v));
      assert next.values + values[1..] == s.values + values;
      ValueItemsRebuild(env, next, values[1..]);
    }
  }

  /** `tools` written over `held`, one after the other. */
  function PutAll(held: OMap<string, Tool>, tools: OMap<string, Tool>): OMap<string, Tool>
    decreases tools
  {
    if tools == [] then held else PutAll(Put(held, tools[0].0, tools[0].1), tools[1..])
  }

  lemma {:induction false} OneToolRebuilds(env: Env, s: LiveState, id: string, t: Tool)
    requires ToolWf(t)
    ensures FoldItems(env, s, ToolItems(id, t)) == Ok(s.(tools := Put(s.tools, id, t)))
  {
    var t1 := Tool(t.toolName, t.args, None, t.presentation, false, None, t.startedAt, None);
    var t2 := t1.(partial := t.partial);
    var s1 := s.(tools := Put(s.tools, id, t1));
    var s2 := s.(tools := Put(s.tools, id, t2));
    var s3 := s.(tools := Put(s.tools, id, t));
    assert FoldItem(env, s, StartItem(id, t)) == Ok(s1);
    var upd := if t.partial.Some? then [UpdateItem(id, t)] else [];
    var end := if t.ended then [EndItem(id, t)] else [];
    assert FoldItems(env, s1, upd) == Ok(s2) by {
      GetPut(s.tools, id, t1, id);
      PutPut(s.tools, id, t1, t2);
      if t.partial.Some? { FoldOne(env, s1, UpdateItem(id, t)); }
    }
    assert FoldItems(env, s2, end) == Ok(s3) by {
      GetPut(s.tools, id, t2, id);
      PutPut(s.tools, id, t2, t);
      if t.ended { FoldOne(env, s2, EndItem(id, t)); }
    }
    FoldOne(env, s, StartItem(id, t));
    FoldItemsConcat(env, s, [StartItem(id, t)], upd);
    FoldItemsConcat(env, s, [StartItem(id, t)] + upd, end);
  }

  lemma {:induction false} FoldOne(env: Env, s: LiveState, item: LiveItem)
    ensures FoldItems(env, s, [item]) == FoldItem(env, s, item)
  {
    var next := FoldItem(env, s, item);
    if next.Ok? { assert FoldItems(env, next.value, [item][1..]) == Ok(next.value); }
  }

  lemma {:induction false} ToolItemsRebuild(env: Env, s: LiveState, tools: OMap<string, Tool>)
    requires forall e :: e in tools ==> ToolWf(e.1)
    ensures FoldItems(env, s, AllToolItems(tools)) == Ok(s.(tools := PutAll(s.tools, tools)))
    decreases tools
  {
    if tools != [] {
      var (id, t) := tools[0];
      assert ToolWf(t) by { assert tools[0] in tools; }
      OneToolRebuilds(env, s, id, t);
      FoldItemsConcat(env, s, ToolItems(id, t), AllToolItems(tools[1..]));
      ToolItemsRebuild(env, s.(tools := Put(s.tools, id, t)), tools[1..]);
    }
  }

  lemma {:induction false} PutAllOnEmpty(held: OMap<string, Tool>, tools: OMap<string, Tool>)
    requires Distinct(held + tools)
    ensures PutAll(held, tools) == held + tools
    decreases tools
  {
    if tools == [] {
      assert held + tools == held;
    } else {
      var (k, v) := tools[0];
      HasIsMember(held, k);
      forall i | 0 <= i < |held| ensures held[i].0 != k {
        assert (held + tools)[i] == held[i];
        assert (held + tools)[|held|] == tools[0];
      }
      PutNew(held, k, v);
      assert held + [(k, v)] + tools[1..] == held + tools;
      PutAllOnEmpty(held + [(k, v)], tools[1..]);
    }
  }

  /** Re-sending the tools a client already holds changes nothing, order included. */
  lemma {:induction false} PutAllOnSame(held: OMap<string, Tool>, n: nat)
    requires Distinct(held) && n <= |held|
    ensures PutAll(held, held[n..]) == held
    decreases |held| - n
  {
    if n < |held| {
      GetAt(held, n);
      PutSame(held, held[n].0, held[n].1);
      assert held[n..][1..] == held[n + 1..];
      PutAllOnSame(held, n + 1);
    }
  }

  // ----- Rebuilding the streaming message

  function LiveText(content: seq<Block>, argsText: OMap<int, string>): OMap<int, string> {
    Filter(argsText, (e: (int, string)) => HoldsCall(content, e.0))
  }

  /** The message without argument text at indexes that hold no tool call. */
  function Scrub(a: Assistant): Assistant {
    a.(argsText := LiveText(a.message.content, a.argsText))
  }

  function ScrubState(s: LiveState): LiveState {
    s.(assistant := if s.assistant.None? then None else Some(Scrub(s.assistant.value)))
  }

  lemma {:induction false} GetLiveText(content: seq<Block>, m: OMap<int, string>, i: int)
    ensures Get(LiveText(content, m), i) == if HoldsCall(content, i) then Get(m, i) else None
  {
    if m != [] {
      GetLiveText(content, m[1..], i);
    }
  }

  lemma {:induction false} DistinctLiveText(content: seq<Block>, m: OMap<int, string>)
    requires Distinct(m)
    ensures Distinct(LiveText(content, m))
  {
    if m != [] {
      DistinctLiveText(content, m[1..]);
      var t := LiveText(content, m[1..]);
      forall j | 0 <= j < |t| ensures t[j].0 != m[0].0 {
        assert t[j] in t;
        assert t[j] in m[1..];
        var k :| 0 <= k < |m[1..]| && m[1..][k] == t[j];
        assert m[k + 1].0 != m[0].0;
      }
    }
  }

  /** One streaming call sent again: its block is rebuilt, and its text is held again. */
  lemma {:induction false} OneCallRebuilds(env: Env, s: LiveState, a: Assistant, i: int, text: string)
    requires ValidEnv(env) && s.assistant == Some(a)
    requires HoldsCall(a.message.content, i)
    requires a.message.content[i] == StreamingToolCall(env, a.message.content[i].id, a.message.content[i].name, text)
    ensures FoldItems(env, s, CallItems(a.message.content, i, text)) ==
            Ok(s.(assistant := Some(a.(argsText := Put(a.argsText, i, text)))))
  {
    var content := a.message.content;
    var start := AssistantDelta(i, CallStart(content[i].id, content[i].name));
    var a1 := WithBlock(a, i, ToolCall(content[i].id, content[i].name, EMPTY_OBJECT, None), Put(a.argsText, i, ""));
    var s1 := s.(assistant := Some(a1));
    FoldOne(env, s, start);
    assert FoldItems(env, s, [start]) == Ok(s1);
    if |text| > 0 {
      var delta := AssistantDelta(i, CallDelta(text, None, None));
      GetPut(a.argsText, i, "", i);
      PutPut(a.argsText, i, "", text);
      assert "" + text == text;
      FoldOne(env, s1, delta);
      var a2 := ApplyAssistantDelta(env, a1, i, delta.event);
      assert a2.message.content == content;
      FoldItemsConcat(env, s, [start], [delta]);
    } else {
      assert text == "";
      assert a1.message.content == content;
      assert [start] + [] == [start];
    }
  }

  lemma {:induction false} NotYet(done: OMap<int, string>, i: int, text: string, rest: OMap<int, string>)
    requires Distinct(done + [(i, text)] + rest)
    ensures !Has(done, i)
  {
    var all := done + [(i, text)] + rest;
    HasIsMember(done, i);
    forall j | 0 <= j < |done| ensures done[j].0 != i {
      assert all[j] == done[j] && all[|done|] == (i, text);
    }
  }

  lemma {:induction false} OneCallAppends(env: Env, s: LiveState, a: Assistant, i: int, text: string, rest: OMap<int,
      string>)
    requires ValidEnv(env) && s.assistant == Some(a) && Distinct(a.argsText + [(i, text)] + rest)
    requires HoldsCall(a.message.content, i)
    requires a.message.content[i] == StreamingToolCall(env, a.message.content[i].id, a.message.content[i].name, text)
    ensures FoldItems(env, s, CallItems(a.message.content, i, text)) ==
            Ok(s.(assistant := Some(a.(argsText := a.argsText + [(i, text)]))))
  {
    NotYet(a.argsText, i, text, rest);
    OneCallRebuilds(env, s, a, i, text);
    PutNew(a.argsText, i, text);
  }

  /** The items of the kept texts append those texts. */
  ghost predicate Rebuilds(env: Env, s: LiveState, a: Assistant, argsText: OMap<int, string>) {
    FoldItems(env, s, AllCallItems(a.message.content, argsText)) ==
    Ok(s.(assistant := Some(a.(argsText := a.argsText + LiveText(a.message.content, argsText)))))
  }

  lemma {:induction false} RebuildHeld(env: Env, s: LiveState, a: Assistant, i: int, text: string, rest: OMap<int,
      string>)
    requires ValidEnv(env) && s.assistant == Some(a) && HoldsCall(a.message.content, i)
    requires Distinct(a.argsText + [(i, text)] + LiveText(a.message.content, rest))
    requires a.message.content[i] == StreamingToolCall(env, a.message.content[i].id, a.message.content[i].name, text)
    requires var a1 := a.(argsText := a.argsText + [(i, text)]); Rebuilds(env, s.(assistant := Some(a1)), a1, rest)
    ensures Rebuilds(env, s, a, [(i, text)] + rest)
  {
    var all, content := [(i, text)] + rest, a.message.content;
    assert all[0] == (i, text) && all[1..] == rest;
    FoldItemsConcat(env, s, CallItems(content, i, text), AllCallItems(content, rest));
    OneCallAppends(env, s, a, i, text, LiveText(content, rest));
    assert LiveText(content, all) == [(i, text)] + LiveText(content, rest);
    assert a.argsText + [(i, text)] + LiveText(content, rest) == a.argsText + LiveText(content, all);
  }

  lemma {:induction false} CallItemsRebuild(env: Env, s: LiveState, a: Assistant, argsText: OMap<int, string>)
    requires ValidEnv(env) && s.assistant == Some(a)
    requires Distinct(a.argsText + LiveText(a.message.content, argsText))
    requires forall e :: e in argsText && HoldsCall(a.message.content, e.0) ==>
                           a.message.content[e.0] ==
                               StreamingToolCall(env, a.message.content[e.0].id, a.message.content[e.0].name, e.1)
    ensures Rebuilds(env, s, a, argsText)
    decreases argsText
  {
    var content := a.message.content;
    if argsText == [] {
      assert a.argsText + [] == a.argsText;
    } else {
      var (i, text) := argsText[0];
      assert argsText[0] in argsText && argsText == [(i, text)] + argsText[1..];
      if HoldsCall(content, i) {
        var a1 := a.(argsText := a.argsText + [(i, text)]);
        assert LiveText(content, argsText) == [(i, text)] + LiveText(content, argsText[1..]);
        assert a1.argsText + LiveText(content, argsText[1..]) == a.argsText + LiveText(content, argsText);
        CallItemsRebuild(env, s.(assistant := Some(a1)), a1, argsText[1..]);
        RebuildHeld(env, s, a, i, text, argsText[1..]);
      } else {
        CallItemsRebuild(env, s, a, argsText[1..]);
        FoldItemsConcat(env, s, CallItems(content, i, text), AllCallItems(content, argsText[1..]));
      }
    }
  }

  lemma {:induction false} PresentationItemsRebuild(env: Env, s: LiveState, a: Assistant, ps: OMap<string,
      ToolPresentation>)
    requires s.assistant == Some(a) && Distinct(a.presentations + ps)
    ensures FoldItems(env, s, PresentationItems(ps)) ==
            Ok(s.(assistant := Some(a.(presentations := a.presentations + ps))))
    decreases ps
  {
    if ps == [] {
      assert a.presentations + ps == a.presentations;
    } else {
      var (k, v) := ps[0];
      HasIsMember(a.presentations, k);
      forall i | 0 <= i < |a.presentations| ensures a.presentations[i].0 != k {
        assert (a.presentations + ps)[i] == a.presentations[i];
        assert (a.presentations + ps)[|a.presentations|] == ps[0];
      }
      PutNew(a.presentations, k, v);
      var a1 := a.(presentations := Put(a.presentations, k, v));
      assert a1.presentations + ps[1..] == a.presentations + ps;
      PresentationItemsRebuild(env, s.(assistant := Some(a1)), a1, ps[1..]);
    }
  }

  lemma {:induction false} ParsedEntries(env: Env, a: Assistant)
    requires AssistantWf(env, a)
    ensures forall e :: e in a.argsText && HoldsCall(a.message.content, e.0) ==>
                          a.message.content[e.0] ==
                              StreamingToolCall(env, a.message.content[e.0].id, a.message.content[e.0].name, e.1)
  {
    forall e | e in a.argsText && HoldsCall(a.message.content, e.0)
      ensures a.message.content[e.0] ==
          StreamingToolCall(env, a.message.content[e.0].id, a.message.content[e.0].name, e.1)
    {
      var n :| 0 <= n < |a.argsText| && a.argsText[n] == e;
      GetAt(a.argsText, n);
    }
  }

  /** Whatever message the receiver held, the items leave exactly this one, scrubbed. */
  lemma {:induction false} AssistantItemsRebuild(env: Env, s: LiveState, a: Assistant)
    requires ValidEnv(env) && AssistantWf(env, a)
    ensures FoldItems(env, s, AssistantItems(a)) == Ok(s.(assistant := Some(Scrub(a))))
  {
    var content := a.message.content;
    var a0 := Assistant(a.message, false, [], []);
    var s0 := s.(assistant := Some(a0));
    var calls := AllCallItems(content, a.argsText);
    var ps := PresentationItems(a.presentations);
    var end := if a.ended then [AssistantEnd] else [];
    FoldOne(env, s, AssistantStart(a.message));

    ParsedEntries(env, a);
    DistinctLiveText(content, a.argsText);
    assert [] + LiveText(content, a.argsText) == LiveText(content, a.argsText);
    CallItemsRebuild(env, s0, a0, a.argsText);
    var a1 := a0.(argsText := LiveText(content, a.argsText));
    var s1 := s.(assistant := Some(a1));
    FoldItemsConcat(env, s, [AssistantStart(a.message)], calls);

    assert [] + a.presentations == a.presentations;
    PresentationItemsRebuild(env, s1, a1, a.presentations);
    var a2 := a1.(presentations := a.presentations);
    var s2 := s.(assistant := Some(a2));
    FoldItemsConcat(env, s, [AssistantStart(a.message)] + calls, ps);

    if a.ended { FoldOne(env, s2, AssistantEnd); }
    FoldItemsConcat(env, s, [AssistantStart(a.message)] + calls + ps, end);
  }

  // ----- The round trips

  /**
   * The streaming items restore message and tools on a receiver without any, and equally on one that holds
   * the same running tools already, whatever message it streams.
   */
  lemma {:induction false} StreamingRoundTrip(env: Env, receiver: LiveState, s: LiveState)
    requires ValidEnv(env) && Wf(env, s)
    requires receiver.tools == [] || receiver.tools == s.tools
    requires s.assistant.None? ==> receiver.assistant.None?
    ensures FoldItems(env, receiver, StreamingItems(s)) ==
            Ok(receiver.(assistant := ScrubState(s).assistant, tools := s.tools))
  {
    var first := if s.assistant.Some? then AssistantItems(s.assistant.value) else [];
    var mid := receiver.(assistant := ScrubState(s).assistant);
    if s.assistant.Some? { AssistantItemsRebuild(env, receiver, s.assistant.value); }
    assert FoldItems(env, receiver, first) == Ok(mid);
    FoldItemsConcat(env, receiver, first, AllToolItems(s.tools));
    ToolItemsRebuild(env, mid, s.tools);
    if receiver.tools == s.tools {
      assert s.tools[0..] == s.tools;
      PutAllOnSame(s.tools, 0);
    } else {
      assert [] + s.tools == s.tools;
      PutAllOnEmpty([], s.tools);
    }
  }

  /** Folding the reset items from nothing gives the state back, but for the leftover argument text. */
  lemma {:induction false} ResetRoundTrip(env: Env, s: LiveState, basedOn: int)
    requires ValidEnv(env) && Wf(env, s)
    ensures FoldItems(env, EmptyLiveFold(basedOn), ResetItems(s)) == Ok(ScrubState(s).(basedOn := basedOn))
  {
    var e := EmptyLiveFold(basedOn);
    assert [] + s.values == s.values;
    ValueItemsRebuild(env, e, s.values);
    FoldItemsConcat(env, e, ValueItems(s.values), StreamingItems(s));
    StreamingRoundTrip(env, e.(values := s.values), s);
  }

  // ----- Leftover text is never observable

  /** Two messages that differ at most in argument text at indexes that hold no tool call, and its order. */
  ghost predicate SameAssistant(a: Assistant, b: Assistant) {
    && a.message == b.message && a.ended == b.ended && a.presentations == b.presentations
    && forall i :: HoldsCall(a.message.content, i) ==> Get(a.argsText, i) == Get(b.argsText, i)
  }

  /** Equal live state, up to leftover argument text; the ordinals they build on are not compared. */
  ghost predicate Same(s: LiveState, t: LiveState) {
    && s.values == t.values && s.tools == t.tools
    && (s.assistant.Some? <==> t.assistant.Some?)
    && (s.assistant.Some? ==> SameAssistant(s.assistant.value, t.assistant.value))
  }

  ghost predicate SameResult(r: Result<LiveState>, q: Result<LiveState>) {
    (r.Ok? <==> q.Ok?) && (r.Ok? ==> Same(r.value, q.value))
  }

  lemma {:induction false} ScrubIsSame(s: LiveState)
    ensures Same(s, ScrubState(s)) && Same(ScrubState(s), s)
  {
    if s.assistant.Some? {
      var a := s.assistant.value;
      forall i | HoldsCall(a.message.content, i) ensures Get(a.argsText, i) == Get(Scrub(a).argsText, i) {
        GetLiveText(a.message.content, a.argsText, i);
      }
    }
  }

  lemma {:induction false} SameDelta(env: Env, a: Assistant, b: Assistant, index: int, event: Delta)
    requires SameAssistant(a, b)
    ensures SameAssistant(ApplyAssistantDelta(env, a, index, event), ApplyAssistantDelta(env, b, index, event))
  {
    var a', b' := ApplyAssistantDelta(env, a, index, event), ApplyAssistantDelta(env, b, index, event);
    if HoldsCall(a.message.content, index) { assert Get(a.argsText, index) == Get(b.argsText, index); }
    assert a'.message == b'.message;
    forall i | HoldsCall(a'.message.content, i) ensures Get(a'.argsText, i) == Get(b'.argsText, i) {
      if event.CallStart? {
        GetPut(a.argsText, index, "", i);
        GetPut(b.argsText, index, "", i);
      } else if event.CallDelta? && HoldsCall(a.message.content, index) && Has(a.argsText, index) {
        var text := Get(a.argsText, index).value + event.argsTextDelta;
        GetPut(a.argsText, index, text, i);
        GetPut(b.argsText, index, text, i);
      } else if event.CallEnd? {
        GetRemove(a.argsText, index, i);
        GetRemove(b.argsText, index, i);
      }
      if i != index { assert HoldsCall(a.message.content, i); }
    }
  }

  lemma {:induction false} SameItem(env: Env, s: LiveState, t: LiveState, item: LiveItem)
    requires Same(s, t)
    ensures SameResult(FoldItem(env, s, item), FoldItem(env, t, item))
  {
    if item.AssistantDelta? && s.assistant.Some? {
      SameDelta(env, s.assistant.value, t.assistant.value, item.contentIndex, item.event);
    }
  }

  /** States equal up to leftover text stay so under every later run of items, failures included. */
  lemma {:induction false} SameItems(env: Env, s: LiveState, t: LiveState, items: seq<LiveItem>)
    requires Same(s, t)
    ensures SameResult(FoldItems(env, s, items), FoldItems(env, t, items))
    decreases items
  {
    if items != [] {
      SameItem(env, s, t, items[0]);
      var r, q := FoldItem(env, s, items[0]), FoldItem(env, t, items[0]);
      if r.Ok? { SameItems(env, r.value, q.value, items[1..]); }
    }
  }

  lemma {:induction false} SameCommit(s: LiveState, t: LiveState, commit: LiveCommit)
    requires Same(s, t)
    ensures Same(FoldLiveCommit(s, commit), FoldLiveCommit(t, commit))
  {
  }

  /** Re-emitting either of two such states to any joining client gives such states again. */
  lemma {:induction false} SameReEmission(env: Env, s: LiveState, t: LiveState, basedOn: int)
    requires ValidEnv(env) && Wf(env, s) && Wf(env, t) && Same(s, t)
    ensures SameResult(FoldItems(env, EmptyLiveFold(basedOn), ResetItems(s)),
                       FoldItems(env, EmptyLiveFold(basedOn), ResetItems(t)))
  {
    ResetRoundTrip(env, s, basedOn);
    ResetRoundTrip(env, t, basedOn);
    ScrubIsSame(s);
    ScrubIsSame(t);
  }

  // ----- Streamed arguments

  function Joined(deltas: seq<string>): string {
    if deltas == [] then "" else Joined(deltas[..|deltas| - 1]) + deltas[|deltas| - 1]
  }

  function StreamedCall(index: int, id: string, name: string, deltas: seq<string>): seq<LiveItem> {
    if deltas == [] then [AssistantDelta(index, CallStart(id, name))]
    else StreamedCall(index, id, name, deltas[..|deltas| - 1])
         + [AssistantDelta(index, CallDelta(deltas[|deltas| - 1], None, None))]
  }

  /** However the argument text is cut into deltas, the call's arguments are the parse of all of it joined. */
  lemma {:induction false} StreamedArguments(env: Env, s: LiveState, a: Assistant, index: nat, id: string, name: string,
                                             deltas: seq<string>)
    requires ValidEnv(env) && s.assistant == Some(a) && index <= |a.message.content|
    ensures FoldItems(env, s, StreamedCall(index, id, name, deltas)) ==
            Ok(s.(assistant := Some(WithBlock(a, index, StreamingToolCall(env, id, name, Joined(deltas)),
                                              Put(a.argsText, index, Joined(deltas))))))
    decreases |deltas|
  {
    if deltas == [] {
      FoldOne(env, s, AssistantDelta(index, CallStart(id, name)));
    } else {
      var n := |deltas| - 1;
      StreamedArguments(env, s, a, index, id, name, deltas[..n]);
      var a1 := WithBlock(a, index, StreamingToolCall(env, id, name, Joined(deltas[..n])),
                          Put(a.argsText, index, Joined(deltas[..n])));
      var s1 := s.(assistant := Some(a1));
      var delta := AssistantDelta(index, CallDelta(deltas[n], None, None));
      FoldItemsConcat(env, s, StreamedCall(index, id, name, deltas[..n]), [delta]);
      FoldOne(env, s1, delta);
      GetPut(a.argsText, index, Joined(deltas[..n]), index);
      PutPut(a.argsText, index, Joined(deltas[..n]), Joined(deltas));
      var a2 := ApplyAssistantDelta(env, a1, index, delta.event);
      assert a2.message.content ==
             SetBlock(a.message.content, index, StreamingToolCall(env, id, name, Joined(deltas)));
      assert FoldItem(env, s1, delta) == Ok(s.(assistant := Some(a2)));
    }
  }
}
