/**
 * Bounded snapshots: a client restored from the newest part of the active branch, beside a client that
 * holds everything, over every common continuation.
 */
module ClientBounded {
  import opened Prelude
  import opened OrderedMaps
  import opened ClientFold
  import opened ClientBranch
  import opened ClientSnapshot

  // ----- Reapplying changes

  lemma {:induction false} DeriveConcat(base: BranchValues, a: seq<Entry>, b: seq<Entry>)
    ensures Derive(base, a + b) == Derive(Derive(base, a), b)
    decreases |b|
  {
    if b == [] {
      assert a + b == a;
    } else {
      var n := |b| - 1;
      assert (a + b)[..|a + b| - 1] == a + b[..n];
      DeriveConcat(base, a, b[..n]);
    }
  }

  /** The last change a path makes to each of the four values. */
  datatype Changes = Changes(model: Option<Option<ModelRef>>, thinkingLevel: Option<string>, fastMode: Option<bool>,
      planning: Option<Option<string>>)

  function ChangesOf(path: seq<Entry>): Changes {
    if path == [] then Changes(None, None, None, None) else
    var c := ChangesOf(path[..|path| - 1]);
    match path[|path| - 1].body
    case ModelChange(Some(model)) => c.(model := Some(Some(model)))
    case ThinkingChange(Some(level)) => c.(thinkingLevel := Some(level))
    case FastModeChange(Some(enabled)) => c.(fastMode := Some(enabled))
    case PlanningChange(Some(planning)) => c.(planning := Some(planning))
    case MessageEntry(Some(p), _) => if p.assistant.Some? then c.(model := Some(p.assistant)) else c
    case _ => c
  }

  function Overwrite(base: BranchValues, c: Changes): BranchValues {
    BranchValues(if c.model.Some? then c.model.value else base.model,
                 if c.thinkingLevel.Some? then c.thinkingLevel.value else base.thinkingLevel,
                 if c.fastMode.Some? then c.fastMode.value else base.fastMode,
                 if c.planning.Some? then c.planning.value else base.planning)
  }

  /** The values of a path are the base overwritten by its last changes. */
  lemma {:induction false} DeriveOverwrites(base: BranchValues, path: seq<Entry>)
    ensures Derive(base, path) == Overwrite(base, ChangesOf(path))
    decreases |path|
  {
    if path != [] { DeriveOverwrites(base, path[..|path| - 1]); }
  }

  /** Applying the last changes of a path again changes nothing. */
  lemma {:induction false} DeriveAgain(base: BranchValues, first: seq<Entry>, last: seq<Entry>)
    ensures Derive(Derive(base, first + last), last) == Derive(base, first + last)
  {
    DeriveConcat(base, first, last);
    DeriveOverwrites(Derive(base, first), last);
    DeriveOverwrites(Derive(base, first + last), last);
  }

  // ----- Parents come first

  /** A held parent has a smaller ordinal than its child, unless an entry names itself. */
  ghost predicate ParentsFirst(byId: OMap<string, Entry>) {
    forall e :: e in byId && e.1.parentId.Some? && e.1.parentId.value != e.1.id && Has(byId, e.1.parentId.value) ==>
                  Get(byId, e.1.parentId.value).value.ordinal < e.1.ordinal
  }

  lemma {:induction false} ApplyParentsFirst(s: ClientState, e: Entry)
    requires Kept(s) && ParentsFirst(s.byId) && Arrives(s, e) && Apply(s, e).Ok?
    ensures ParentsFirst(Apply(s, e).value.byId)
  {
    forall id | Has(s.byId, id) ensures Get(s.byId, id).value.ordinal < e.ordinal { HeldOrdinal(s, id); }
    PutParentsFirst(s.byId, e);
  }

  lemma {:induction false} PutParentsFirst(byId: OMap<string, Entry>, e: Entry)
    requires ParentsFirst(byId) && !Has(byId, e.id) && Unnamed(byId, e.id)
    requires forall id :: Has(byId, id) ==> Get(byId, id).value.ordinal < e.ordinal
    ensures ParentsFirst(Put(byId, e.id, e))
  {
    var next := Put(byId, e.id, e);
    PutNew(byId, e.id, e);
    forall x | x in next && x.1.parentId.Some? && x.1.parentId.value != x.1.id && Has(next, x.1.parentId.value)
      ensures Get(next, x.1.parentId.value).value.ordinal < x.1.ordinal
    {
      GetPut(byId, e.id, e, x.1.parentId.value);
      assert x in byId || x == (e.id, e);
    }
  }

  lemma {:induction false} HeldOrdinal(s: ClientState, id: string)
    requires Kept(s) && Has(s.byId, id)
    ensures Get(s.byId, id).value.ordinal <= s.ordinal && Get(s.byId, id).value.id == id
  {
    ByIdAt(s.entries);
    GetIsMember(s.byId, id);
    var i :| 0 <= i < |s.byId| && s.byId[i] == (id, Get(s.byId, id).value);
    assert s.byId[i] == (s.entries[i].id, s.entries[i]);
  }

  lemma {:induction false} KeptKeyed(s: ClientState)
    requires Kept(s)
    ensures Keyed(s.byId) && Distinct(s.byId)
  {
    ByIdAt(s.entries);
    forall e | e in s.byId ensures e.0 == e.1.id {
      var i :| 0 <= i < |s.byId| && s.byId[i] == e;
    }
  }

  /** Along a held path ordinals grow. */
  lemma {:induction false} PathAscends(s: ClientState, id: Option<string>, path: seq<Entry>)
    requires Kept(s) && ParentsFirst(s.byId) && IsChain(s.byId, id, {}, path)
    ensures forall i :: 0 <= i < |path| ==> 0 < path[i].ordinal <= s.ordinal
    ensures Ascending(path, EntryOrdinal)
  {
    KeptKeyed(s);
    forall i | 0 <= i < |path| ensures 0 < path[i].ordinal <= s.ordinal {
      assert Get(s.byId, path[i].id) == Some(path[i]);
      HeldOrdinal(s, path[i].id);
      ByIdAt(s.entries);
      GetIsMember(s.byId, path[i].id);
      var k :| 0 <= k < |s.byId| && s.byId[k] == (path[i].id, path[i]);
      assert s.entries[k] == path[i];
    }
    forall i | 0 < i < |path| ensures path[i - 1].ordinal < path[i].ordinal {
      assert Get(s.byId, path[i].id) == Some(path[i]) && Get(s.byId, path[i - 1].id) == Some(path[i - 1]);
      GetIsMember(s.byId, path[i].id);
      assert path[i].parentId == Some(path[i - 1].id);
    }
    Climbs(path);
  }

  lemma {:induction false} Climbs(path: seq<Entry>)
    requires forall i :: 0 < i < |path| ==> path[i - 1].ordinal < path[i].ordinal
    ensures Ascending(path, EntryOrdinal)
    decreases |path|
  {
    if |path| > 1 {
      var n := |path| - 1;
      Climbs(path[..n]);
      forall i | 0 <= i < n ensures EntryOrdinal(path[i]) < EntryOrdinal(path[n]) {
        if i < n - 1 {
          assert EntryOrdinal(path[..n][i]) < EntryOrdinal(path[..n][n - 1]);
        }
      }
      forall i, j | 0 <= i < j < |path| ensures EntryOrdinal(path[i]) < EntryOrdinal(path[j]) {
        if j < n { assert EntryOrdinal(path[..n][i]) < EntryOrdinal(path[..n][j]); }
      }
    }
  }

  // ----- Joining paths

  ghost predicate Links(tail: seq<Entry>, from: Option<string>) {
    && (tail != [] ==> tail[0].parentId == from)
    && (forall i :: 0 < i < |tail| ==> tail[i].parentId == Some(tail[i - 1].id))
  }

  /** Held entries that lead on from `from`, none of them met before. */
  ghost predicate GoesOn(byId: OMap<string, Entry>, from: Option<string>, path: seq<Entry>, tail: seq<Entry>) {
    && tail != [] && Links(tail, from)
    && (forall i :: 0 <= i < |tail| ==> Get(byId, tail[i].id) == Some(tail[i]))
    && (forall i, j :: 0 <= i < j < |tail| ==> tail[i].id != tail[j].id)
    && (forall i, j :: 0 <= i < |path| && 0 <= j < |tail| ==> path[i].id != tail[j].id)
  }

  /** A path to `from`, and a chain that goes on from there, are the path to its end. */
  lemma {:induction false} JoinPaths(byId: OMap<string, Entry>, from: Option<string>, path: seq<Entry>,
      tail: seq<Entry>)
    requires Keyed(byId) && IsChain(byId, from, {}, path) && GoesOn(byId, from, path, tail)
    ensures HeldBranch(byId, Some(tail[|tail| - 1].id)) == path + tail
  {
    var all := path + tail;
    JoinedLinks(byId, from, path, tail);
    JoinedHolds(byId, path, tail);
    JoinedRoot(byId, from, path, tail);
    assert IsChain(byId, Some(tail[|tail| - 1].id), {}, all);
    ChainIsUnique(byId, Some(tail[|tail| - 1].id), {}, all);
  }

  lemma {:induction false} JoinedLinks(byId: OMap<string, Entry>, from: Option<string>, path: seq<Entry>,
      tail: seq<Entry>)
    requires IsChain(byId, from, {}, path) && Links(tail, from)
    ensures forall i :: 0 < i < |path + tail| ==> (path + tail)[i].parentId == Some((path + tail)[i - 1].id)
  {
    var all := path + tail;
    forall i | 0 < i < |all| ensures all[i].parentId == Some(all[i - 1].id) {
      if i > |path| {
        assert tail[i - |path|].parentId == Some(tail[i - |path| - 1].id);
      }
    }
  }

  lemma {:induction false} JoinedHolds(byId: OMap<string, Entry>, path: seq<Entry>, tail: seq<Entry>)
    requires forall i :: 0 <= i < |path| ==> Get(byId, path[i].id) == Some(path[i])
    requires forall i :: 0 <= i < |tail| ==> Get(byId, tail[i].id) == Some(tail[i])
    ensures forall i :: 0 <= i < |path + tail| ==> Get(byId, (path + tail)[i].id) == Some((path + tail)[i])
  {
  }

  lemma {:induction false} JoinedRoot(byId: OMap<string, Entry>, from: Option<string>, path: seq<Entry>,
      tail: seq<Entry>)
    requires IsChain(byId, from, {}, path) && tail != [] && Links(tail, from)
    ensures var root := (path + tail)[0].parentId;
            root.None? || !Has(byId, root.value) || OnPath(path + tail, root.value)
  {
    var all := path + tail;
    if path == [] {
      assert all[0] == tail[0] && tail[0].parentId == from;
    } else {
      assert all[0] == path[0];
      if path[0].parentId.Some? && OnPath(path, path[0].parentId.value) {
        var k :| 0 <= k < |path| && path[k].id == path[0].parentId.value;
        assert all[k].id == path[0].parentId.value;
      }
    }
  }

  // ----- The two clients

  /** What both clients know of a snapshot: where it was taken, the branch then, and the part it carried. */
  datatype Cut = Cut(ordinal: nat, leafId: Option<string>, branch: seq<Entry>, carried: seq<Entry>,
      values: BranchValues)

  /** The full client and the bounded one, some time after the snapshot. */
  ghost predicate Beside(c: Cut, full: ClientState, bounded: ClientState) {
    && full.ordinal == bounded.ordinal && full.leafId == bounded.leafId && full.records == bounded.records
    && Keyed(full.byId) && Keyed(bounded.byId)
    && (forall id :: Has(bounded.byId, id) ==> Get(full.byId, id) == Get(bounded.byId, id))
    && (forall e :: e in bounded.byId ==> e in full.byId)
    && (forall id :: Has(full.byId, id) && Get(full.byId, id).value.ordinal > c.ordinal ==> Has(bounded.byId, id))
    && c.ordinal <= full.ordinal
    && FromScratch(full) && FromScratch(bounded)
    && HeldBranch(full.byId, c.leafId) == c.branch
    && HeldBranch(bounded.byId, c.leafId) == c.carried
    && bounded.base == c.values
  }

  /** What the cut itself promises. */
  ghost predicate CutOk(c: Cut, base: BranchValues) {
    && |c.carried| <= |c.branch| && c.carried == c.branch[|c.branch| - |c.carried|..]
    && c.values == Derive(base, c.branch)
    && (forall i :: 0 <= i < |c.branch| ==> c.branch[i].ordinal <= c.ordinal)
  }

  /** The active leaf is the snapshot's, or reached from it over entries that came after. */
  ghost predicate Descends(c: Cut, full: ClientState) {
    full.leafId == c.leafId ||
    exists k :: DescendsFrom(c, HeldBranch(full.byId, full.leafId), k)
  }

  ghost predicate DescendsFrom(c: Cut, path: seq<Entry>, k: int) {
    && 0 <= k < |path| && path[k].parentId == c.leafId
    && forall j :: k <= j < |path| ==> path[j].ordinal > c.ordinal
  }

  /** The two paths to a leaf that descends from the snapshot differ only before it. */
  lemma {:induction false} DescendingPaths(c: Cut, full: ClientState, bounded: ClientState) returns (tail: seq<Entry>)
    requires Beside(c, full, bounded) && CutOk(c, full.base) && Descends(c, full)
    ensures HeldBranch(full.byId, full.leafId) == c.branch + tail
    ensures HeldBranch(bounded.byId, full.leafId) == c.carried + tail
  {
    if full.leafId == c.leafId {
      tail := [];
      assert c.branch + [] == c.branch && c.carried + [] == c.carried;
    } else {
      tail := DescendingTail(c, full, bounded);
      TailPath(full.byId, c.leafId, c.branch, tail);
      TailPath(bounded.byId, c.leafId, c.carried, tail);
    }
  }

  lemma {:induction false} DescendingTail(c: Cut, full: ClientState, bounded: ClientState) returns (tail: seq<Entry>)
    requires Beside(c, full, bounded) && CutOk(c, full.base) && Descends(c, full) && full.leafId != c.leafId
    ensures GoesOn(full.byId, c.leafId, c.branch, tail) && GoesOn(bounded.byId, c.leafId, c.carried, tail)
    ensures full.leafId == Some(tail[|tail| - 1].id)
  {
    var path := HeldBranch(full.byId, full.leafId);
    var k :| DescendsFrom(c, path, k);
    WalkIsChain(full.byId, full.leafId, {});
    TailHolds(c, full, bounded, path, k);
    tail := path[k..];
  }

  lemma {:induction false} TailPath(byId: OMap<string, Entry>, from: Option<string>, path: seq<Entry>, tail: seq<Entry>)
    requires Keyed(byId) && HeldBranch(byId, from) == path && GoesOn(byId, from, path, tail)
    ensures HeldBranch(byId, Some(tail[|tail| - 1].id)) == path + tail
  {
    WalkIsChain(byId, from, {});
    JoinPaths(byId, from, path, tail);
  }

  /** Where the leaf descends from the snapshot, both clients see the same branch values. */
  lemma {:induction false} SameValues(c: Cut, full: ClientState, bounded: ClientState)
    requires Beside(c, full, bounded) && CutOk(c, full.base) && Descends(c, full)
    ensures full.values == bounded.values
  {
    var tail := DescendingPaths(c, full, bounded);
    JoinedValues(full.base, c, tail);
  }

  lemma {:induction false} JoinedValues(base: BranchValues, c: Cut, tail: seq<Entry>)
    requires CutOk(c, base)
    ensures Derive(base, c.branch + tail) == Derive(c.values, c.carried + tail)
  {
    EndsAgain(base, c.branch, c.carried);
    DeriveConcat(base, c.branch, tail);
    DeriveConcat(c.values, c.carried, tail);
  }

  lemma {:induction false} EndsAgain(base: BranchValues, branch: seq<Entry>, carried: seq<Entry>)
    requires |carried| <= |branch| && carried == branch[|branch| - |carried|..]
    ensures Derive(Derive(base, branch), carried) == Derive(base, branch)
  {
    var first := branch[..|branch| - |carried|];
    assert branch == first + carried;
    DeriveAgain(base, first, carried);
  }

  lemma {:induction false} TailHolds(c: Cut, full: ClientState, bounded: ClientState, path: seq<Entry>, k: nat)
    requires Beside(c, full, bounded) && CutOk(c, full.base) && DescendsFrom(c, path, k)
    requires IsChain(full.byId, full.leafId, {}, path)
    ensures full.leafId == Some(path[k..][|path[k..]| - 1].id)
    ensures GoesOn(full.byId, c.leafId, c.branch, path[k..]) && GoesOn(bounded.byId, c.leafId, c.carried, path[k..])
  {
    TailKept(c, full.byId, bounded.byId, path, k);
    WalkIsChain(full.byId, c.leafId, {});
    TailApart(full.byId, c, path[k..]);
    TailLinked(full.byId, full.leafId, c.leafId, path, k);
  }

  lemma {:induction false} TailKept(c: Cut, full: OMap<string, Entry>, bounded: OMap<string, Entry>, path: seq<Entry>,
      k: nat)
    requires DescendsFrom(c, path, k) && forall i :: 0 <= i < |path| ==> Get(full, path[i].id) == Some(path[i])
    requires forall id :: Has(bounded, id) ==> Get(full, id) == Get(bounded, id)
    requires forall id :: Has(full, id) && Get(full, id).value.ordinal > c.ordinal ==> Has(bounded, id)
    ensures forall i :: 0 <= i < |path[k..]| ==> path[k..][i].ordinal > c.ordinal
    ensures forall i :: 0 <= i < |path[k..]| ==>
        Get(full, path[k..][i].id) == Some(path[k..][i])
        && Get(bounded, path[k..][i].id) == Some(path[k..][i])
  {
    var tail := path[k..];
    forall i | 0 <= i < |tail|
      ensures tail[i].ordinal > c.ordinal && Get(full, tail[i].id) == Some(tail[i])
          && Get(bounded, tail[i].id) == Some(tail[i])
    {
      assert tail[i] == path[k + i];
      assert Has(full, tail[i].id);
    }
  }

  lemma {:induction false} TailLinked(byId: OMap<string, Entry>, leafId: Option<string>, from: Option<string>,
      path: seq<Entry>, k: nat)
    requires IsChain(byId, leafId, {}, path) && k < |path| && path[k].parentId == from
    ensures Links(path[k..], from) && leafId == Some(path[k..][|path[k..]| - 1].id)
    ensures forall i, j :: 0 <= i < j < |path[k..]| ==> path[k..][i].id != path[k..][j].id
  {
    var tail := path[k..];
    forall i | 0 < i < |tail| ensures tail[i].parentId == Some(tail[i - 1].id) {
      assert tail[i] == path[k + i] && tail[i - 1] == path[k + i - 1];
    }
  }

  /** Entries that came after the snapshot are not on its branch. */
  lemma {:induction false} TailApart(byId: OMap<string, Entry>, c: Cut, tail: seq<Entry>)
    requires |c.carried| <= |c.branch| && c.carried == c.branch[|c.branch| - |c.carried|..]
    requires forall i :: 0 <= i < |c.branch| ==>
        c.branch[i].ordinal <= c.ordinal
        && Get(byId, c.branch[i].id) == Some(c.branch[i])
    requires forall j :: 0 <= j < |tail| ==> tail[j].ordinal > c.ordinal && Get(byId, tail[j].id) == Some(tail[j])
    ensures forall i, j :: 0 <= i < |c.branch| && 0 <= j < |tail| ==> c.branch[i].id != tail[j].id
    ensures forall i, j :: 0 <= i < |c.carried| && 0 <= j < |tail| ==> c.carried[i].id != tail[j].id
  {
    forall i, j | 0 <= i < |c.carried| && 0 <= j < |tail| ensures c.carried[i].id != tail[j].id {
      assert c.carried[i] == c.branch[|c.branch| - |c.carried| + i];
    }
  }

  // ----- Continuing

  /** The leaf after an entry depends only on the leaf before it. */
  function NextLeaf(leafId: Option<string>, e: Entry): Option<string> {
    if e.body.LeafMove? then (if e.body.target.Some? then e.body.target.value else leafId)
    else if IsPublic(e.body) then Some(e.id)
    else leafId
  }

  lemma {:induction false} ApplyShape(s: ClientState, e: Entry)
    requires Apply(s, e).Ok?
    ensures var r := Apply(s, e).value;
            && r.leafId == NextLeaf(s.leafId, e) && r.records == ApplyRecords(s.records, e)
            && r.byId == Put(s.byId, e.id, e) && r.ordinal == e.ordinal && r.base == s.base
  {
  }

  lemma {:induction false} BesideApply(c: Cut, full: ClientState, bounded: ClientState, e: Entry)
    requires Beside(c, full, bounded) && Arrives(full, e) && Apply(full, e).Ok? && c.leafId != Some(e.id)
    ensures Apply(bounded, e).Ok? && Beside(c, Apply(full, e).value, Apply(bounded, e).value)
  {
    assert !Has(bounded.byId, e.id);
    assert Arrives(bounded, e);
    var f, b := Apply(full, e).value, Apply(bounded, e).value;
    ApplyShape(full, e);
    ApplyShape(bounded, e);
    assert FromScratch(f) by { ApplyFromScratch(full, e); }
    assert FromScratch(b) by { ApplyFromScratch(bounded, e); }
    assert HeldBranch(f.byId, c.leafId) == c.branch by { PathUnaffected(full.byId, e, c.leafId, {}); }
    assert HeldBranch(b.byId, c.leafId) == c.carried by { PathUnaffected(bounded.byId, e, c.leafId, {}); }
    BesideIndex(c, full.byId, bounded.byId, e);
  }

  lemma {:induction false} BesideIndex(c: Cut, full: OMap<string, Entry>, bounded: OMap<string, Entry>, e: Entry)
    requires Keyed(full) && Keyed(bounded) && !Has(full, e.id) && !Has(bounded, e.id)
    requires forall id :: Has(bounded, id) ==> Get(full, id) == Get(bounded, id)
    requires forall x :: x in bounded ==> x in full
    requires forall id :: Has(full, id) && Get(full, id).value.ordinal > c.ordinal ==> Has(bounded, id)
    ensures var f, b := Put(full, e.id, e), Put(bounded, e.id, e);
            && Keyed(f) && Keyed(b)
            && (forall id :: Has(b, id) ==> Get(f, id) == Get(b, id))
            && (forall x :: x in b ==> x in f)
            && (forall id :: Has(f, id) && Get(f, id).value.ordinal > c.ordinal ==> Has(b, id))
  {
    PutNew(full, e.id, e);
    PutNew(bounded, e.id, e);
    var f, b := Put(full, e.id, e), Put(bounded, e.id, e);
    forall id | Has(b, id) ensures Get(f, id) == Get(b, id) {
      GetPut(full, e.id, e, id);
      GetPut(bounded, e.id, e, id);
    }
    forall id | Has(f, id) && Get(f, id).value.ordinal > c.ordinal ensures Has(b, id) {
      GetPut(full, e.id, e, id);
      GetPut(bounded, e.id, e, id);
    }
  }

  /** No later entry takes the id the snapshot's leaf named. */
  ghost predicate NoLateLeaf(c: Cut, steps: seq<ClientStep>) {
    forall step :: step in steps && step.FoldEntry? ==> c.leafId != Some(step.entry.id)
  }

  lemma {:induction false} BesideStep(c: Cut, full: ClientState, bounded: ClientState, step: ClientStep)
    requires Beside(c, full, bounded) && Step(full, step).Ok?
    requires step.FoldEntry? ==> Arrives(full, step.entry) && c.leafId != Some(step.entry.id)
    ensures Step(bounded, step).Ok? && Beside(c, Step(full, step).value, Step(bounded, step).value)
    ensures Step(full, step).value.base == full.base
  {
    if step.FoldEntry? {
      BesideApply(c, full, bounded, step.entry);
      ApplyShape(full, step.entry);
    }
  }

  lemma {:induction false} BesideRun(c: Cut, full: ClientState, bounded: ClientState, steps: seq<ClientStep>)
    requires Beside(c, full, bounded) && ArrivesInOrder(full, steps) && Run(full, steps).Ok? && NoLateLeaf(c, steps)
    ensures Run(bounded, steps).Ok? && Beside(c, Run(full, steps).value, Run(bounded, steps).value)
    ensures Run(full, steps).value.base == full.base
    decreases steps
  {
    if steps != [] {
      assert steps[0] in steps;
      BesideStep(c, full, bounded, steps[0]);
      BesideRun(c, Step(full, steps[0]).value, Step(bounded, steps[0]).value, steps[1..]);
    }
  }

  // ----- Restoring the bounded client

  /** What holds of a client that folded a well-formed log. */
  ghost predicate Sound(s: ClientState) {
    Kept(s) && ParentsFirst(s.byId) && FromScratch(s)
  }

  lemma {:induction false} RunSound(s: ClientState, steps: seq<ClientStep>)
    requires Sound(s) && ArrivesInOrder(s, steps)
    ensures Run(s, steps).Ok? ==> Sound(Run(s, steps).value)
    decreases steps
  {
    if steps != [] {
      var next := Step(s, steps[0]);
      if next.Ok? {
        if steps[0].FoldEntry? {
          ApplyKeeps(s, steps[0].entry);
          ApplyParentsFirst(s, steps[0].entry);
          ApplyFromScratch(s, steps[0].entry);
        }
        RunSound(next.value, steps[1..]);
      }
    }
  }

  /** A snapshot of the newest `|branch| - k` entries of the active branch. */
  function BoundedSnapshot(s: ClientState, k: nat): Snapshot
    requires k <= |HeldBranch(s.byId, s.leafId)|
  {
    SnapshotWith(s, HeldBranch(s.byId, s.leafId)[k..], true)
  }

  function CutAt(s: ClientState, k: nat): Cut
    requires k <= |HeldBranch(s.byId, s.leafId)|
  {
    var branch := HeldBranch(s.byId, s.leafId);
    Cut(s.ordinal, s.leafId, branch, branch[k..], s.values)
  }

  /** The records survive any snapshot. */
  lemma {:induction false} RecordsSurvive(s: ClientState, entries: seq<Entry>, earlier: bool)
    requires Kept(s)
    ensures Restored(s.ordinal, SnapshotWith(s, entries, earlier)).records == s.records
  {
    var plain := s.(earlier := false, base := DEFAULT_VALUES);
    SnapshotRoundTrip(plain);
    assert Restored(s.ordinal, SnapshotWith(s, entries, earlier)).records ==
        Restored(s.ordinal, TakeSnapshot(plain)).records;
  }

  /** The bounded client's own path to the leaf is what the snapshot carried. */
  lemma {:induction false} CarriedPath(s: ClientState, k: nat)
    requires Sound(s) && k <= |HeldBranch(s.byId, s.leafId)|
    ensures var c := CutAt(s, k);
            && EntriesOk(s.ordinal, c.carried)
            && HeldBranch(ById(c.carried), s.leafId) == c.carried
            && Keyed(ById(c.carried))
            && (forall x :: x in ById(c.carried) ==> x in s.byId)
            && (forall id :: Has(ById(c.carried), id) ==> Get(s.byId, id) == Get(ById(c.carried), id))
  {
    var branch := HeldBranch(s.byId, s.leafId);
    var carried := branch[k..];
    KeptKeyed(s);
    WalkIsChain(s.byId, s.leafId, {});
    assert EntriesOk(s.ordinal, carried) by {
      PathAscends(s, s.leafId, branch);
      forall i, j | 0 <= i < j < |carried| ensures EntryOrdinal(carried[i]) < EntryOrdinal(carried[j]) {
        assert EntryOrdinal(branch[k + i]) < EntryOrdinal(branch[k + j]);
      }
    }
    CarriedKeyed(s, carried, branch, k);
    CarriedGets(s, carried, branch, k);
    CarriedChain(s, carried, branch, k);
    ChainIsUnique(ById(carried), s.leafId, {}, carried);
  }

  lemma {:induction false} CarriedKeyed(s: ClientState, carried: seq<Entry>, branch: seq<Entry>, k: nat)
    requires k <= |branch| && carried == branch[k..] && IsChain(s.byId, s.leafId, {}, branch)
    ensures Keyed(ById(carried)) && forall x :: x in ById(carried) ==> x in s.byId
  {
    ByIdAt(carried);
    var byId := ById(carried);
    forall x | x in byId ensures x.0 == x.1.id && x in s.byId {
      var i :| 0 <= i < |byId| && byId[i] == x;
      assert carried[i] == branch[k + i];
      assert Get(s.byId, carried[i].id) == Some(carried[i]);
      GetIsMember(s.byId, carried[i].id);
    }
  }

  lemma {:induction false} CarriedGets(s: ClientState, carried: seq<Entry>, branch: seq<Entry>, k: nat)
    requires k <= |branch| && carried == branch[k..] && IsChain(s.byId, s.leafId, {}, branch)
    ensures forall i :: 0 <= i < |carried| ==> Get(ById(carried), carried[i].id) == Some(carried[i])
    ensures forall id :: Has(ById(carried), id) ==> OnPath(carried, id) && Get(s.byId, id) == Get(ById(carried), id)
  {
    ByIdAt(carried);
    var byId := ById(carried);
    assert Distinct(byId);
    forall i | 0 <= i < |carried| ensures Get(byId, carried[i].id) == Some(carried[i]) {
      GetAt(byId, i);
    }
    forall id | Has(byId, id) ensures OnPath(carried, id) && Get(s.byId, id) == Get(byId, id) {
      HasIsMember(byId, id);
      var i :| 0 <= i < |byId| && byId[i].0 == id;
      GetAt(byId, i);
      assert carried[i].id == id;
      assert Get(s.byId, branch[k + i].id) == Some(branch[k + i]);
    }
  }

  lemma {:induction false} CarriedChain(s: ClientState, carried: seq<Entry>, branch: seq<Entry>, k: nat)
    requires k <= |branch| && carried == branch[k..] && IsChain(s.byId, s.leafId, {}, branch)
    ensures IsChain(ById(carried), s.leafId, {}, carried)
  {
    CarriedGets(s, carried, branch, k);
    var byId := ById(carried);
    forall i | 0 < i < |carried| ensures carried[i].parentId == Some(carried[i - 1].id) {
      assert branch[k + i].parentId == Some(branch[k + i - 1].id);
    }
    if carried != [] && carried[0].parentId.Some? && Has(byId, carried[0].parentId.value) {
      assert OnPath(carried, carried[0].parentId.value);
    }
  }

  lemma {:induction false} CutAtOk(s: ClientState, k: nat)
    requires Sound(s) && k <= |HeldBranch(s.byId, s.leafId)|
    ensures CutOk(CutAt(s, k), s.base)
  {
    KeptKeyed(s);
    WalkIsChain(s.byId, s.leafId, {});
    PathAscends(s, s.leafId, HeldBranch(s.byId, s.leafId));
  }

  /** The snapshot's values, changed again by what it carried, are themselves. */
  lemma {:induction false} CarriedAgain(s: ClientState, k: nat)
    requires FromScratch(s) && k <= |HeldBranch(s.byId, s.leafId)|
    ensures Derive(s.values, CutAt(s, k).carried) == s.values
  {
    var c := CutAt(s, k);
    EndsAgain(s.base, c.branch, c.carried);
  }

  lemma {:induction false} StartsBeside(s: ClientState, k: nat)
    requires Sound(s) && k <= |HeldBranch(s.byId, s.leafId)|
    ensures Beside(CutAt(s, k), s, Restored(s.ordinal, BoundedSnapshot(s, k)))
  {
    var c, b := CutAt(s, k), Restored(s.ordinal, BoundedSnapshot(s, k));
    CarriedPath(s, k);
    RecordsSurvive(s, c.carried, true);
    KeptKeyed(s);
    CarriedAgain(s, k);
    assert b.byId == ById(c.carried) && b.values == s.values && b.base == s.values;
    forall id | Has(s.byId, id) ensures Get(s.byId, id).value.ordinal <= c.ordinal {
      HeldOrdinal(s, id);
    }
  }

  /**
   * Bounded snapshots: whatever both clients receive next, they agree on leaf, name, labels, queue,
   * lineage and work, and on the branch values whenever the leaf is the snapshot's or descends from it,
   * also after moving away and back.
   */
  lemma {:induction false} BoundedSnapshotAgrees(full: ClientState, k: nat, steps: seq<ClientStep>)
    requires Sound(full) && k <= |HeldBranch(full.byId, full.leafId)|
    requires Run(full, steps).Ok? && ArrivesInOrder(full, steps) && NoLateLeaf(CutAt(full, k), steps)
    ensures EntriesOk(full.ordinal, BoundedSnapshot(full, k).entries)
    ensures var bounded := Run(Restored(full.ordinal, BoundedSnapshot(full, k)), steps);
            var whole := Run(full, steps).value;
            && bounded.Ok?
            && bounded.value.leafId == whole.leafId && bounded.value.records == whole.records
                && bounded.value.ordinal == whole.ordinal
            && (Descends(CutAt(full, k), whole) ==> bounded.value.values == whole.values)
  {
    var c := CutAt(full, k);
    CarriedPath(full, k);
    StartsBeside(full, k);
    CutAtOk(full, k);
    var b := Restored(full.ordinal, BoundedSnapshot(full, k));
    BesideRun(c, full, b, steps);
    var whole := Run(full, steps).value;
    if Descends(c, whole) { SameValues(c, whole, Run(b, steps).value); }
  }

  lemma {:induction false} EmptySound()
    ensures Sound(EMPTY)
  {
  }

  /** The same, for every run of a client that started empty and every point of it. */
  lemma {:induction false} BoundedAtAnyCut(before: seq<ClientStep>, k: nat, after: seq<ClientStep>)
    requires Run(EMPTY, before).Ok? && Run(EMPTY, before + after).Ok? && ArrivesInOrder(EMPTY, before)
    requires k <= |HeldBranch(Run(EMPTY, before).value.byId, Run(EMPTY, before).value.leafId)|
    requires ArrivesInOrder(Run(EMPTY, before).value, after) && NoLateLeaf(CutAt(Run(EMPTY, before).value, k), after)
    ensures var full := Run(EMPTY, before).value;
            var bounded := Run(Restored(full.ordinal, BoundedSnapshot(full, k)), after);
            var whole := Run(EMPTY, before + after).value;
            && bounded.Ok?
            && bounded.value.leafId == whole.leafId && bounded.value.records == whole.records
                && bounded.value.ordinal == whole.ordinal
            && (Descends(CutAt(full, k), whole) ==> bounded.value.values == whole.values)
  {
    EmptySound();
    RunSound(EMPTY, before);
    RunConcat(EMPTY, before, after);
    BoundedSnapshotAgrees(Run(EMPTY, before).value, k, after);
  }

  // ----- Exactly when the branch values agree

  /** The entries one index holds are held by the other, unchanged. */
  ghost predicate HeldBy(small: OMap<string, Entry>, large: OMap<string, Entry>) {
    forall id :: Has(small, id) ==> Get(large, id) == Get(small, id)
  }

  /** A path over fewer held entries is the end of the path over more. */
  lemma {:induction false} PathEnds(small: OMap<string, Entry>, large: OMap<string, Entry>, id: Option<string>,
      seen: set<string>)
    returns (missing: seq<Entry>)
    requires HeldBy(small, large)
    ensures HeldPath(large, id, seen) == missing + HeldPath(small, id, seen)
    decreases Keys(small) - seen
  {
    if id.None? || id.value in seen || !Has(small, id.value) {
      missing := HeldPath(large, id, seen);
      assert missing + [] == missing;
    } else {
      var entry := Get(small, id.value).value;
      KeysAre(small, id.value);
      assert id.value in Keys(small) - seen;
      missing := PathEnds(small, large, entry.parentId, seen + {id.value});
      var rest := HeldPath(small, entry.parentId, seen + {id.value});
      assert (missing + rest) + [entry] == missing + (rest + [entry]);
    }
  }

  /** The entries of the full client's path that the bounded client's path lacks. */
  ghost function Missing(full: ClientState, bounded: ClientState): seq<Entry>
    requires |HeldBranch(bounded.byId, full.leafId)| <= |HeldBranch(full.byId, full.leafId)|
  {
    var path := HeldBranch(full.byId, full.leafId);
    path[..|path| - |HeldBranch(bounded.byId, full.leafId)|]
  }

  /**
   * Nothing is lost: each value is set by an entry of the bounded client's own path, or what lies before
   * that path leaves it as the snapshot has it.
   */
  predicate NothingLost(own: Changes, before: BranchValues, snapshot: BranchValues) {
    && (own.model.Some? || before.model == snapshot.model)
    && (own.thinkingLevel.Some? || before.thinkingLevel == snapshot.thinkingLevel)
    && (own.fastMode.Some? || before.fastMode == snapshot.fastMode)
    && (own.planning.Some? || before.planning == snapshot.planning)
  }

  lemma {:induction false} OverwriteAgrees(a: BranchValues, b: BranchValues, c: Changes)
    ensures Overwrite(a, c) == Overwrite(b, c) <==> NothingLost(c, a, b)
  {
  }

  /** The full and the bounded client agree on the branch values exactly when nothing is lost. */
  lemma {:induction false} ValuesAgreeIff(c: Cut, full: ClientState, bounded: ClientState)
    requires Beside(c, full, bounded)
    ensures var own := HeldBranch(bounded.byId, full.leafId);
            && |own| <= |HeldBranch(full.byId, full.leafId)|
            && HeldBranch(full.byId, full.leafId) == Missing(full, bounded) + own
            && (full.values == bounded.values <==>
                NothingLost(ChangesOf(own), Derive(full.base, Missing(full, bounded)), c.values))
  {
    var own := HeldBranch(bounded.byId, full.leafId);
    var missing := PathEnds(bounded.byId, full.byId, full.leafId, {});
    assert (missing + own)[..|missing|] == missing;
    DeriveConcat(full.base, missing, own);
    DeriveOverwrites(Derive(full.base, missing), own);
    DeriveOverwrites(c.values, own);
    OverwriteAgrees(Derive(full.base, missing), c.values, ChangesOf(own));
  }

  /**
   * Bounded snapshots, exactly: over every run of a client that started empty, every point of it and
   * every continuation, the two clients agree on the branch values if and only if nothing is lost.
   */
  lemma {:induction false} BoundedAgreesIff(before: seq<ClientStep>, k: nat, after: seq<ClientStep>)
    requires Run(EMPTY, before).Ok? && Run(EMPTY, before + after).Ok? && ArrivesInOrder(EMPTY, before)
    requires k <= |HeldBranch(Run(EMPTY, before).value.byId, Run(EMPTY, before).value.leafId)|
    requires ArrivesInOrder(Run(EMPTY, before).value, after) && NoLateLeaf(CutAt(Run(EMPTY, before).value, k), after)
    ensures var full := Run(EMPTY, before).value;
            var restored := Run(Restored(full.ordinal, BoundedSnapshot(full, k)), after);
            var whole := Run(EMPTY, before + after).value;
            && restored.Ok?
            && var own := HeldBranch(restored.value.byId, whole.leafId);
               && |own| <= |HeldBranch(whole.byId, whole.leafId)|
               && (whole.values == restored.value.values <==>
                   NothingLost(ChangesOf(own), Derive(DEFAULT_VALUES, Missing(whole, restored.value)), full.values))
  {
    EmptySound();
    RunSound(EMPTY, before);
    RunKeeps(EMPTY, before);
    RunConcat(EMPTY, before, after);
    var full := Run(EMPTY, before).value;
    StartsBeside(full, k);
    BesideRun(CutAt(full, k), full, Restored(full.ordinal, BoundedSnapshot(full, k)), after);
    ValuesAgreeIff(CutAt(full, k), Run(full, after).value,
        Run(Restored(full.ordinal, BoundedSnapshot(full, k)), after).value);
  }

  // ----- A bounded client's own snapshot

  /** Two states that differ at most in the branch values and their base. */
  ghost predicate Twins(a: ClientState, b: ClientState) {
    b == a.(values := b.values, base := b.base)
  }

  lemma {:induction false} TwinsStep(a: ClientState, b: ClientState, step: ClientStep)
    requires Twins(a, b) && FromScratch(a) && FromScratch(b) && Step(a, step).Ok?
    requires step.FoldEntry? ==> Arrives(a, step.entry)
    ensures Step(b, step).Ok? && Twins(Step(a, step).value, Step(b, step).value)
    ensures FromScratch(Step(a, step).value) && FromScratch(Step(b, step).value)
    ensures Step(a, step).value.base == a.base && Step(b, step).value.base == b.base
  {
    if step.FoldEntry? {
      ApplyFields(a, step.entry);
      ApplyFields(b, step.entry);
      ApplyShape(a, step.entry);
      ApplyShape(b, step.entry);
      ApplyFromScratch(a, step.entry);
      ApplyFromScratch(b, step.entry);
    }
  }

  lemma {:induction false} TwinsRun(a: ClientState, b: ClientState, steps: seq<ClientStep>)
    requires Twins(a, b) && FromScratch(a) && FromScratch(b) && Run(a, steps).Ok? && ArrivesInOrder(a, steps)
    ensures Run(b, steps).Ok? && Twins(Run(a, steps).value, Run(b, steps).value)
    ensures FromScratch(Run(a, steps).value) && FromScratch(Run(b, steps).value)
    ensures Run(a, steps).value.base == a.base && Run(b, steps).value.base == b.base
    decreases steps
  {
    if steps != [] {
      TwinsStep(a, b, steps[0]);
      TwinsRun(Step(a, steps[0]).value, Step(b, steps[0]).value, steps[1..]);
    }
  }

  /**
   * A bounded client restored from its own snapshot: after every continuation everything but the branch
   * values is the same, and those agree exactly when nothing is lost.
   */
  lemma {:induction false} OwnSnapshotAgreesIff(s: ClientState, steps: seq<ClientStep>)
    requires Kept(s) && FromScratch(s) && s.earlier && Run(s, steps).Ok? && ArrivesInOrder(s, steps)
    ensures var restored := Run(Restored(s.ordinal, TakeSnapshot(s)), steps);
            var kept := Run(s, steps).value;
            && restored.Ok? && Twins(kept, restored.value)
            && (kept.values == restored.value.values <==>
                NothingLost(ChangesOf(HeldBranch(kept.byId, kept.leafId)), s.base, s.values))
  {
    SnapshotRoundTrip(s);
    var t := Restored(s.ordinal, TakeSnapshot(s));
    var branch := HeldBranch(s.byId, s.leafId);
    assert branch[0..] == branch;
    EndsAgain(s.base, branch, branch);
    TwinsRun(s, t, steps);
    var path := HeldBranch(Run(s, steps).value.byId, Run(s, steps).value.leafId);
    DeriveOverwrites(s.base, path);
    DeriveOverwrites(s.values, path);
    OverwriteAgrees(s.base, s.values, ChangesOf(path));
  }

  /** A client restored from a bounded snapshot is as sound as the one the snapshot was taken of. */
  lemma {:induction false} BoundedIsSound(s: ClientState, k: nat)
    requires Sound(s) && k <= |HeldBranch(s.byId, s.leafId)|
    ensures var b := Restored(s.ordinal, BoundedSnapshot(s, k)); Sound(b) && b.earlier
  {
    CarriedPath(s, k);
    CarriedAgain(s, k);
    RecordsSurvive(s, CutAt(s, k).carried, true);
    CarriedFirst(s, ById(CutAt(s, k).carried));
  }

  lemma {:induction false} CarriedFirst(s: ClientState, byId: OMap<string, Entry>)
    requires ParentsFirst(s.byId) && HeldBy(byId, s.byId) && forall x :: x in byId ==> x in s.byId
    ensures ParentsFirst(byId)
  {
  }

  /**
   * The same over every run: a client restored from a bounded snapshot, whatever it received until it was
   * restored again from its own snapshot, and whatever it receives after.
   */
  lemma {:induction false} OwnSnapshotAtAnyCut(before: seq<ClientStep>, k: nat, more: seq<ClientStep>,
      after: seq<ClientStep>)
    requires Run(EMPTY, before).Ok? && ArrivesInOrder(EMPTY, before)
    requires k <= |HeldBranch(Run(EMPTY, before).value.byId, Run(EMPTY, before).value.leafId)|
    requires var full := Run(EMPTY, before).value;
             var bounded := Restored(full.ordinal, BoundedSnapshot(full, k));
             && Run(bounded, more).Ok? && ArrivesInOrder(bounded, more)
             && Run(Run(bounded, more).value, after).Ok? && ArrivesInOrder(Run(bounded, more).value, after)
    ensures var full := Run(EMPTY, before).value;
            var s := Run(Restored(full.ordinal, BoundedSnapshot(full, k)), more).value;
            var restored := Run(Restored(s.ordinal, TakeSnapshot(s)), after);
            var kept := Run(s, after).value;
            && restored.Ok? && Twins(kept, restored.value)
            && (kept.values == restored.value.values <==>
                NothingLost(ChangesOf(HeldBranch(kept.byId, kept.leafId)), full.values, s.values))
  {
    EmptySound();
    RunSound(EMPTY, before);
    var full := Run(EMPTY, before).value;
    var bounded := Restored(full.ordinal, BoundedSnapshot(full, k));
    BoundedIsSound(full, k);
    RunSound(bounded, more);
    RunKeeps(bounded, more);
    OwnSnapshotAgreesIff(Run(bounded, more).value, after);
  }

  // ----- Entries the snapshot left out

  const FIRST := Entry("a", None, 1, "", OtherPublic(""))
  const CHILD := Entry("b", Some("a"), 2, "", FastModeChange(Some(true)))
  const AWAY := Entry("m", None, 3, "", LeafMove(Some(Some("a"))))
  const BACK := Entry("n", None, 4, "", LeafMove(Some(Some("b"))))
  const BEFORE_CUT :=
      ClientState(3, [FIRST, CHILD, AWAY], HELD, false, Some("a"), DEFAULT_VALUES, NO_RECORDS, DEFAULT_VALUES)

  const HELD: OMap<string, Entry> := [("a", FIRST), ("b", CHILD), ("m", AWAY)]

  lemma {:induction false} HeldThen(more: OMap<string, Entry>, id: string)
    ensures Get(HELD + more, id) == if id == "a" then Some(FIRST) else if id == "b" then Some(CHILD) else if id == "m"
        then Some(AWAY) else Get(more, id)
  {
    var m := HELD + more;
    assert m[1..] == [("b", CHILD), ("m", AWAY)] + more && m[1..][1..] == [("m", AWAY)] + more
        && m[1..][1..][1..] == more;
    assert Get(m[1..][1..], id) == if id == "m" then Some(AWAY) else Get(more, id);
    assert Get(m[1..], id) == if id == "b" then Some(CHILD) else Get(m[1..][1..], id);
  }

  lemma {:induction false} PathToFirst(byId: OMap<string, Entry>)
    requires Get(byId, "a") == Some(FIRST)
    ensures HeldBranch(byId, Some("a")) == [FIRST]
  {
    assert HeldPath(byId, None, {} + {"a"}) == [];
  }

  lemma {:induction false} PathToChild(byId: OMap<string, Entry>)
    requires Get(byId, "a") == Some(FIRST) && Get(byId, "b") == Some(CHILD)
    ensures HeldBranch(byId, Some("b")) == [FIRST, CHILD]
  {
    assert HeldPath(byId, None, {} + {"b"} + {"a"}) == [];
    assert HeldPath(byId, Some("a"), {} + {"b"}) == [FIRST];
  }

  const ONE := EMPTY.(ordinal := 1, entries := [FIRST], byId := [("a", FIRST)], leafId := Some("a"))
  const TWO :=
      ONE.(ordinal := 2, entries := [FIRST, CHILD], byId := [("a", FIRST), ("b", CHILD)], leafId :=
      Some("b"), values := DEFAULT_VALUES.(fastMode := true))

  lemma {:induction false} ReachesOne()
    ensures Apply(EMPTY, FIRST) == Ok(ONE)
  {
    PutNew(EMPTY.byId, "a", FIRST);
    assert [] + [FIRST] == [FIRST] && [] + [("a", FIRST)] == [("a", FIRST)];
  }

  lemma {:induction false} ReachesTwo(earlier: bool)
    ensures Apply(ONE.(earlier := earlier), CHILD) == Ok(TWO.(earlier := earlier))
  {
    var one: OMap<string, Entry> := [("a", FIRST)];
    assert one[1..] == [] && one[0].0 == "a" && "a"[0] != "b"[0];
    assert Get(one, "b") == None;
    PutNew(ONE.byId, "b", CHILD);
    assert [FIRST] + [CHILD] == [FIRST, CHILD] && [("a", FIRST)] + [("b", CHILD)] == [("a", FIRST), ("b", CHILD)];
  }

  lemma {:induction false} ReachesThree(earlier: bool, base: BranchValues)
    ensures Apply(TWO.(earlier := earlier, base := base), AWAY) ==
            Ok(BEFORE_CUT.(earlier := earlier, base := base, values := base))
    ensures HeldBranch(HELD, Some("a")) == [FIRST]
  {
    assert TWO.byId[1..] == [("b", CHILD)] && TWO.byId[1..][1..] == [] && "a" != "m" && "b" != "m";
    assert Get(TWO.byId[1..], "m") == None;
    PutNew(TWO.byId, "m", AWAY);
    HeldThen([], "a");
    assert HELD + [] == HELD;
    PathToFirst(HELD);
    assert [] + [FIRST] == [FIRST];
    DeriveSnoc(base, [], FIRST);
    assert [FIRST, CHILD] + [AWAY] == [FIRST, CHILD, AWAY] && TWO.byId + [("m", AWAY)] == HELD;
  }

  lemma {:induction false} FoldThree(s: ClientState, a: Entry, s1: ClientState, b: Entry, s2: ClientState, c: Entry,
      s3: ClientState)
    requires Apply(s, a) == Ok(s1) && Apply(s1, b) == Ok(s2) && Apply(s2, c) == Ok(s3)
    ensures Fold(s, [a, b, c]) == Ok(s3)
  {
    assert [a, b, c][1..] == [b, c] && [b, c][1..] == [c] && [c][1..] == [];
    assert Fold(s3, []) == Ok(s3);
    assert Fold(s2, [c]) == Ok(s3);
    assert Fold(s1, [b, c]) == Ok(s3);
  }

  lemma {:induction false} ReachesCut()
    ensures Fold(EMPTY, [FIRST, CHILD, AWAY]) == Ok(BEFORE_CUT)
    ensures HeldBranch(BEFORE_CUT.byId, Some("a")) == [FIRST]
  {
    ReachesOne();
    ReachesTwo(false);
    ReachesThree(false, DEFAULT_VALUES);
    FoldThree(EMPTY, FIRST, ONE, CHILD, TWO, AWAY, BEFORE_CUT);
  }

  /**
   * A child of the snapshot's leaf that was known before the snapshot: both clients return to it, only
   * the full one knows what it changed.
   */
  lemma {:induction false} OlderChildDisagrees()
    ensures Fold(EMPTY, [FIRST, CHILD, AWAY]) == Ok(BEFORE_CUT) && CHILD.parentId == BEFORE_CUT.leafId
    ensures |HeldBranch(BEFORE_CUT.byId, BEFORE_CUT.leafId)| == 1
    ensures var bounded := Apply(Restored(3, BoundedSnapshot(BEFORE_CUT, 0)), BACK);
            var full := Apply(BEFORE_CUT, BACK);
            && full.Ok? && bounded.Ok? && full.value.leafId == bounded.value.leafId == Some(CHILD.id)
            && full.value.values.fastMode && !bounded.value.values.fastMode
  {
    ReachesCut();
    BackFull();
    BackBounded();
  }

  lemma {:induction false} BackFull()
    ensures var full := Apply(BEFORE_CUT, BACK);
            full.Ok? && full.value.leafId == Some("b") && full.value.values.fastMode
  {
    HeldThen([], "n");
    assert HELD + [] == HELD;
    PutNew(HELD, "n", BACK);
    var held := HELD + [("n", BACK)];
    HeldThen([("n", BACK)], "a");
    HeldThen([("n", BACK)], "b");
    PathToChild(held);
    assert [FIRST, CHILD][..1] == [FIRST];
    assert Derive(DEFAULT_VALUES, [FIRST, CHILD]) == ApplyBranchValue(Derive(DEFAULT_VALUES, [FIRST]), CHILD);
  }

  /** The bounded client holds nothing but the first entry. */
  lemma {:induction false} CutBounded()
    requires HeldBranch(BEFORE_CUT.byId, BEFORE_CUT.leafId) == [FIRST]
    ensures var b := Restored(3, BoundedSnapshot(BEFORE_CUT, 0));
            && b.ordinal == 3 && b.byId == [("a", FIRST)] && b.leafId == Some("a")
            && b.values == DEFAULT_VALUES && b.base == DEFAULT_VALUES
  {
    assert [FIRST][0..] == [FIRST];
    assert ById([FIRST]) == [("a", FIRST)] by { assert [FIRST][..0] == []; }
  }

  lemma {:induction false} OnlyFirst(id: string)
    requires id != "a"
    ensures Get([("a", FIRST)], id) == None
  {
    var one: OMap<string, Entry> := [("a", FIRST)];
    assert one[1..] == [];
  }

  lemma {:induction false} BackBounded()
    requires HeldBranch(BEFORE_CUT.byId, BEFORE_CUT.leafId) == [FIRST]
    ensures var bounded := Apply(Restored(3, BoundedSnapshot(BEFORE_CUT, 0)), BACK);
            bounded.Ok? && bounded.value.leafId == Some("b") && !bounded.value.values.fastMode
  {
    CutBounded();
    var one: OMap<string, Entry> := [("a", FIRST)];
    assert "n"[0] != "a"[0] && "b"[0] != "a"[0] && "b"[0] != "n"[0];
    OnlyFirst("n");
    OnlyFirst("b");
    GetPut(one, "n", BACK, "b");
    assert HeldBranch(Put(one, "n", BACK), Some("b")) == [];
  }

  /** The bounded client of `ONE`, and what it is after its next entry. */
  const BOUNDED_ONE := ONE.(earlier := true)
  const BOUNDED_TWO := TWO.(earlier := true)

  lemma {:induction false} ReachesBounded()
    ensures |HeldBranch(ONE.byId, ONE.leafId)| == 1 && Restored(1, BoundedSnapshot(ONE, 0)) == BOUNDED_ONE
    ensures Sound(ONE) && Kept(BOUNDED_TWO)
  {
    ReachesOne();
    EmptySound();
    assert Run(EMPTY, [FoldEntry(FIRST)]) == Ok(ONE) by { assert [FoldEntry(FIRST)][1..] == []; }
    RunSound(EMPTY, [FoldEntry(FIRST)]);
    PathToFirst(ONE.byId);
    assert [FIRST][0..] == [FIRST];
    assert ById([FIRST]) == [("a", FIRST)] by { assert [FIRST][..0] == []; }
    RecordsSurvive(ONE, [FIRST], true);
    BoundedIsSound(ONE, 0);
    ReachesTwo(true);
    ApplyKeeps(BOUNDED_ONE, CHILD);
  }

  /**
   * A bounded client that is restored from its own snapshot and then moves back: what it received before
   * that snapshot has become the base of its values, and stays although its leaf is no longer there.
   */
  lemma {:induction false} OwnSnapshotDisagrees()
    ensures Apply(EMPTY, FIRST) == Ok(ONE) && |HeldBranch(ONE.byId, ONE.leafId)| == 1
    ensures Apply(Restored(1, BoundedSnapshot(ONE, 0)), CHILD) == Ok(BOUNDED_TWO)
    ensures var kept := Apply(BOUNDED_TWO, AWAY);
            var restored := Apply(Restored(2, TakeSnapshot(BOUNDED_TWO)), AWAY);
            && kept.Ok? && restored.Ok? && kept.value.leafId == restored.value.leafId == Some(FIRST.id)
            && !kept.value.values.fastMode && restored.value.values.fastMode
  {
    ReachesOne();
    ReachesBounded();
    ReachesTwo(true);
    SnapshotRoundTrip(BOUNDED_TWO);
    ReachesThree(true, DEFAULT_VALUES);
    ReachesThree(true, BOUNDED_TWO.values);
  }

  const DEEP := Entry("d", Some("b"), 4, "", OtherPublic(""))

  /**
   * An entry both clients receive, below a child that was left out: the bounded client holds the leaf,
   * but its path starts there, and what the child changed is lost.
   */
  lemma {:induction false} BelowLeftOutDisagrees()
    ensures Fold(EMPTY, [FIRST, CHILD, AWAY]) == Ok(BEFORE_CUT)
    ensures |HeldBranch(BEFORE_CUT.byId, BEFORE_CUT.leafId)| == 1
    ensures var bounded := Apply(Restored(3, BoundedSnapshot(BEFORE_CUT, 0)), DEEP);
            var full := Apply(BEFORE_CUT, DEEP);
            && full.Ok? && bounded.Ok? && full.value.leafId == bounded.value.leafId == Some(DEEP.id)
            && Has(bounded.value.byId, DEEP.id) && HeldBranch(full.value.byId, Some(DEEP.id)) == [FIRST, CHILD, DEEP]
            && full.value.values.fastMode && !bounded.value.values.fastMode
  {
    ReachesCut();
    DeepFull();
    DeepBounded();
  }

  lemma {:induction false} DeepFull()
    ensures var full := Apply(BEFORE_CUT, DEEP);
            && full.Ok? && full.value.leafId == Some("d") && full.value.values.fastMode
            && HeldBranch(full.value.byId, Some("d")) == [FIRST, CHILD, DEEP]
  {
    HeldThen([], "d");
    assert HELD + [] == HELD;
    HeldThen([], "a");
    HeldThen([], "b");
    PathToChild(HELD);
    assert Unnamed(HELD, "d");
    ArrivedPath(HELD, DEEP);
    assert [FIRST, CHILD] + [DEEP] == [FIRST, CHILD, DEEP];
    DeriveSnoc(DEFAULT_VALUES, [FIRST, CHILD], DEEP);
    DeriveSnoc(DEFAULT_VALUES, [FIRST], CHILD);
    assert [FIRST] + [CHILD] == [FIRST, CHILD];
  }

  lemma {:induction false} DeepBounded()
    requires HeldBranch(BEFORE_CUT.byId, BEFORE_CUT.leafId) == [FIRST]
    ensures var bounded := Apply(Restored(3, BoundedSnapshot(BEFORE_CUT, 0)), DEEP);
            && bounded.Ok? && bounded.value.leafId == Some("d") && Has(bounded.value.byId, "d")
            && !bounded.value.values.fastMode
  {
    CutBounded();
    var one: OMap<string, Entry> := [("a", FIRST)];
    assert "d"[0] != "a"[0] && "b"[0] != "a"[0];
    OnlyFirst("d");
    OnlyFirst("b");
    assert HeldBranch(one, Some("b")) == [];
    GetPut(one, "d", DEEP, "d");
    GetPut(one, "d", DEEP, "b");
    assert Unnamed(one, "d");
    AlonePath(one, DEEP, DEFAULT_VALUES);
  }

  /** An entry whose parent is not held, and which changes nothing, leaves the values alone. */
  lemma {:induction false} AlonePath(byId: OMap<string, Entry>, e: Entry, base: BranchValues)
    requires !Has(byId, e.id) && Unnamed(byId, e.id) && e.parentId != Some(e.id)
    requires HeldBranch(byId, e.parentId) == [] && ApplyBranchValue(base, e) == base
    ensures Derive(base, HeldBranch(Put(byId, e.id, e), Some(e.id))) == base
  {
    ArrivedPath(byId, e);
    DeriveSnoc(base, [], e);
  }
}
