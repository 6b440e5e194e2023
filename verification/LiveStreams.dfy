/** What a stream of live items leaves: joined text, the latest tool report, and the values no item touched. */
module LiveStreams {
  import opened Prelude
  import opened OrderedMaps
  import opened LiveFold
  import opened LiveReset

  // ----- Text and thinking

  function StreamedText(index: int, deltas: seq<string>): seq<LiveItem> {
    if deltas == [] then [AssistantDelta(index, TextStart)]
    else StreamedText(index, deltas[..|deltas| - 1]) + [AssistantDelta(index, TextDelta(deltas[|deltas| - 1]))]
  }

  function StreamedThinking(index: int, redacted: Option<bool>, deltas: seq<string>): seq<LiveItem> {
    if deltas == [] then [AssistantDelta(index, ThinkingStart(redacted))]
    else StreamedThinking(index, redacted, deltas[..|deltas| - 1])
         + [AssistantDelta(index, ThinkingDelta(deltas[|deltas| - 1]))]
  }

  lemma {:induction false} BlockAgain(content: seq<Block>, index: nat, a: Block, b: Block)
    requires index <= |content|
    ensures |SetBlock(content, index, a)| > index && SetBlock(content, index, a)[index] == a
    ensures SetBlock(SetBlock(content, index, a), index, b) == SetBlock(content, index, b)
  {
  }

  /** However a text is cut into deltas, its block holds all of it joined. */
  lemma {:induction false} TextIsJoined(env: Env, s: LiveState, a: Assistant, index: nat, deltas: seq<string>)
    requires s.assistant == Some(a) && index <= |a.message.content|
    ensures FoldItems(env, s, StreamedText(index, deltas)) ==
            Ok(s.(assistant := Some(WithBlock(a, index, Text(Joined(deltas), None), a.argsText))))
    decreases |deltas|
  {
    if deltas == [] {
      FoldOne(env, s, AssistantDelta(index, TextStart));
    } else {
      var n := |deltas| - 1;
      TextIsJoined(env, s, a, index, deltas[..n]);
      var delta := AssistantDelta(index, TextDelta(deltas[n]));
      var before := Text(Joined(deltas[..n]), None);
      FoldItemsConcat(env, s, StreamedText(index, deltas[..n]), [delta]);
      FoldOne(env, s.(assistant := Some(WithBlock(a, index, before, a.argsText))), delta);
      BlockAgain(a.message.content, index, before, Text(Joined(deltas), None));
    }
  }

  lemma {:induction false} ThinkingIsJoined(env: Env, s: LiveState, a: Assistant, index: nat, redacted: Option<bool>,
      deltas: seq<string>)
    requires s.assistant == Some(a) && index <= |a.message.content|
    ensures FoldItems(env, s, StreamedThinking(index, redacted, deltas)) ==
            Ok(s.(assistant := Some(WithBlock(a, index, Thinking(Joined(deltas), redacted, None), a.argsText))))
    decreases |deltas|
  {
    if deltas == [] {
      FoldOne(env, s, AssistantDelta(index, ThinkingStart(redacted)));
    } else {
      var n := |deltas| - 1;
      ThinkingIsJoined(env, s, a, index, redacted, deltas[..n]);
      var delta := AssistantDelta(index, ThinkingDelta(deltas[n]));
      var before := Thinking(Joined(deltas[..n]), redacted, None);
      FoldItemsConcat(env, s, StreamedThinking(index, redacted, deltas[..n]), [delta]);
      FoldOne(env, s.(assistant := Some(WithBlock(a, index, before, a.argsText))), delta);
      BlockAgain(a.message.content, index, before, Thinking(Joined(deltas), redacted, None));
    }
  }

  // ----- Calls that ended

  ghost predicate LateDeltas(items: seq<LiveItem>, index: int) {
    forall i :: 0 <= i < |items| ==>
        items[i].AssistantDelta? && items[i].contentIndex == index
        && items[i].event.CallDelta?
  }

  lemma {:induction false} Ignored(env: Env, s: LiveState, index: int, items: seq<LiveItem>)
    requires LateDeltas(items, index) && (s.assistant.Some? ==> Get(s.assistant.value.argsText, index).None?)
    ensures FoldItems(env, s, items) == Ok(s)
    decreases items
  {
    if items != [] {
      assert FoldItem(env, s, items[0]) == Ok(s);
      Ignored(env, s, index, items[1..]);
    }
  }

  /** A call that ended is the one the end named, whatever argument text comes late. */
  lemma {:induction false} EndedCallStays(env: Env, s: LiveState, index: nat, id: string, name: string,
      arguments: Json, signature: Option<string>, late: seq<LiveItem>)
    requires s.assistant.Some? && HoldsCall(s.assistant.value.message.content, index) && LateDeltas(late, index)
    ensures var r := FoldItems(env, s, [AssistantDelta(index, CallEnd(id, name, arguments, signature))] + late);
            && r.Ok? && r.value.assistant.Some?
            && r.value.assistant.value.message.content ==
               s.assistant.value.message.content[index := ToolCall(id, name, arguments, signature)]
            && !Has(r.value.assistant.value.argsText, index)
  {
    var end := AssistantDelta(index, CallEnd(id, name, arguments, signature));
    FoldItemsConcat(env, s, [end], late);
    FoldOne(env, s, end);
    GetRemove(s.assistant.value.argsText, index, index);
    Ignored(env, FoldItem(env, s, end).value, index, late);
  }

  // ----- Tools

  function Reports(id: string, updates: seq<ToolItem>): (r: seq<LiveItem>)
    ensures |r| == |updates|
  {
    if updates == [] then [] else Reports(id, updates[..|updates| - 1]) + [ToolProgress(updates[|updates| - 1])]
  }

  ghost predicate PlainUpdates(id: string, updates: seq<ToolItem>) {
    forall i :: 0 <= i < |updates| ==>
        updates[i].op.Update? && updates[i].toolCallId == id
        && updates[i].presentation.None? && updates[i].patch.None?
  }

  function Args(updates: seq<ToolItem>): seq<Option<Json>> { seq(|updates|,
      i requires 0 <= i < |updates| => updates[i].args) }
  function Partials(updates: seq<ToolItem>): seq<Option<string>> { seq(|updates|,
      i requires 0 <= i < |updates| => updates[i].partial) }

  /** Only name, arguments and partial result of a tool may differ. */
  ghost predicate Shows(s: LiveState, id: string, held: Tool, args: Option<Json>, partial: Option<string>) {
    && Has(s.tools, id)
    && var t := Get(s.tools, id).value;
       && t.args == args && t.partial == partial && t.presentation == held.presentation
       && t.ended == held.ended && t.isError == held.isError && t.startedAt == held.startedAt
           && t.endedAt == held.endedAt
  }

  lemma {:induction false} OneReport(env: Env, s: LiveState, id: string, held: Tool, args: Option<Json>,
      partial: Option<string>, item: ToolItem)
    requires Shows(s, id, held, args, partial)
    requires item.op.Update? && item.toolCallId == id && item.presentation.None? && item.patch.None?
    ensures var r := FoldItems(env, s, [ToolProgress(item)]);
            r.Ok? && Shows(r.value, id, held, OrElse(item.args, args), OrElse(item.partial, partial))
  {
    FoldOne(env, s, ToolProgress(item));
    var tool := ApplyToolItem(env, Get(s.tools, id), item);
    GetPut(s.tools, id, tool.value, id);
  }

  /** A running tool shows its latest arguments and partial result, keeps its start, and does not end by reports. */
  lemma {:induction false} LatestReportShows(env: Env, s: LiveState, id: string, held: Tool, updates: seq<ToolItem>)
    requires Get(s.tools, id) == Some(held) && PlainUpdates(id, updates)
    ensures var r := FoldItems(env, s, Reports(id, updates));
            r.Ok? && Shows(r.value, id, held, Latest(Args(updates), held.args), Latest(Partials(updates), held.partial))
    decreases |updates|
  {
    if updates != [] {
      var n := |updates| - 1;
      var rest, last := updates[..n], updates[n];
      LatestReportShows(env, s, id, held, rest);
      FoldItemsConcat(env, s, Reports(id, rest), [ToolProgress(last)]);
      OneReport(env, FoldItems(env, s, Reports(id, rest)).value, id, held, Latest(Args(rest), held.args),
          Latest(Partials(rest), held.partial), last);
      assert Args(updates) == Args(rest) + [last.args] && Partials(updates) == Partials(rest) + [last.partial];
      LatestSnoc(Args(rest), last.args, held.args);
      LatestSnoc(Partials(rest), last.partial, held.partial);
    }
  }

  // ----- Keyed values

  predicate Touches(item: LiveItem, key: string) {
    (item.SetValue? || item.ClearValue? || item.PatchValue?) && item.key == key
  }

  /** A keyed value persists until an item of its own key sets, clears or patches it. */
  lemma {:induction false} UntouchedValueStays(env: Env, s: LiveState, items: seq<LiveItem>, key: string)
    requires forall i :: 0 <= i < |items| ==> !Touches(items[i], key)
    ensures FoldItems(env, s, items).Ok? ==> Get(FoldItems(env, s, items).value.values, key) == Get(s.values, key)
    decreases items
  {
    if items != [] {
      var next := FoldItem(env, s, items[0]);
      match items[0] {
        case SetValue(k, v) => GetPut(s.values, k, v, key);
        case ClearValue(k) => GetRemove(s.values, k, key);
        case PatchValue(k, ops) =>
          var held := Get(s.values, k);
          if held.Some? {
            var value := PatchLiveValue(env, held.value, ops);
            if value.Ok? { GetPut(s.values, k, value.value, key); }
          }
        case _ =>
      }
      if next.Ok? { UntouchedValueStays(env, next.value, items[1..], key); }
    }
  }
}
