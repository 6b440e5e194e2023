/**
 * The bounded work table: whatever starts, reports and finishes, the kept table is an unbounded table
 * restricted to the open items and the 64 finished last.
 */
module ClientWork {
  import opened Prelude
  import opened OrderedMaps
  import opened ClientFold
  import opened ClientSnapshot

  type Row = (string, WorkItem)

  // ----- The unbounded table

  /** Finishing without forgetting. */
  function FinishItem(work: OMap<string, WorkItem>, p: WorkEnd, ordinal: nat, timestamp: string): OMap<string,
      WorkItem> {
    var item := Get(work, p.workId);
    if item.None?
        || item.value.outcome.Some? then work
        else Put(work, item.value.workId, Finished(item.value, p, ordinal, timestamp))
  }

  function KeepAll(work: OMap<string, WorkItem>, e: Entry): OMap<string, WorkItem> {
    match e.body
    case WorkStarted(Some(p)) => StartWork(work, p, e.ordinal, e.timestamp)
    case WorkCheckpoint(Some(p)) => CheckpointWork(work, p, e.ordinal)
    case WorkFinished(Some(p)) => FinishItem(work, p, e.ordinal, e.timestamp)
    case _ => work
  }

  function KeepAllRun(work: OMap<string, WorkItem>, steps: seq<ClientStep>): OMap<string, WorkItem>
    decreases steps
  {
    if steps == [] then work
    else KeepAllRun(if steps[0].FoldEntry? then KeepAll(work, steps[0].entry) else work, steps[1..])
  }

  // ----- What is kept

  predicate IsFinished(w: WorkItem) { w.finishedOrdinal.Some? }

  predicate FinishedAfter(w: WorkItem, ordinal: int) { IsFinished(w) && FinishedOrdinal(w) > ordinal }

  function Newer(ordinal: int): Row -> bool { (e: Row) => FinishedAfter(e.1, ordinal) }

  /** How many items of a table finished after `ordinal`. */
  function CountNewer(work: OMap<string, WorkItem>, ordinal: int): nat {
    |Filter(work, Newer(ordinal))|
  }

  /** Open, or among the 64 finished last. */
  predicate Current(work: OMap<string, WorkItem>, w: WorkItem) {
    !IsFinished(w) || CountNewer(work, FinishedOrdinal(w)) < WORK_FINISHED_MAX
  }

  function CurrentIn(work: OMap<string, WorkItem>): Row -> bool { (e: Row) => Current(work, e.1) }

  function Bounded(work: OMap<string, WorkItem>): OMap<string, WorkItem> { Filter(work, CurrentIn(work)) }

  // ----- Filters

  lemma {:induction false} FilterWeaker<T>(s: seq<T>, p: T -> bool, q: T -> bool)
    requires forall x :: x in s && p(x) ==> q(x)
    ensures |Filter(s, p)| <= |Filter(s, q)|
  {
    if s != [] { FilterWeaker(s[1..], p, q); }
  }

  /** A value replaced by one the filter treats alike. */
  lemma {:induction false} FilterPut(m: OMap<string, WorkItem>, k: string, v: WorkItem, p: Row -> bool)
    requires Distinct(m) && Has(m, k) && p((k, v)) && p((k, Get(m, k).value))
    ensures Filter(Put(m, k, v), p) == Put(Filter(m, p), k, v) && Get(Filter(m, p), k) == Get(m, k)
  {
    if m[0].0 == k {
      assert Put(m, k, v)[1..] == m[1..];
    } else {
      FilterPut(m[1..], k, v, p);
      assert Put(m, k, v)[1..] == Put(m[1..], k, v);
    }
  }

  lemma {:induction false} FilterPutOut(m: OMap<string, WorkItem>, k: string, v: WorkItem, p: Row -> bool)
    requires Has(m, k) && !p((k, v)) && !p((k, Get(m, k).value))
    ensures Filter(Put(m, k, v), p) == Filter(m, p)
  {
    if m[0].0 == k {
      assert Put(m, k, v)[1..] == m[1..];
    } else {
      FilterPutOut(m[1..], k, v, p);
      assert Put(m, k, v)[1..] == Put(m[1..], k, v);
    }
  }

  lemma {:induction false} FilterPutIn(m: OMap<string, WorkItem>, k: string, v: WorkItem, p: Row -> bool)
    requires Has(m, k) && !p((k, Get(m, k).value))
    ensures |Filter(Put(m, k, v), p)| >= |Filter(m, p)|
  {
    if m[0].0 == k {
      assert Put(m, k, v)[1..] == m[1..];
    } else {
      FilterPutIn(m[1..], k, v, p);
      assert Put(m, k, v)[1..] == Put(m[1..], k, v);
    }
  }

  lemma {:induction false} FilterGet(m: OMap<string, WorkItem>, k: string, p: Row -> bool)
    requires Distinct(m)
    ensures Get(Filter(m, p), k) == if Has(m, k) && p((k, Get(m, k).value)) then Get(m, k) else None
  {
    if m != [] {
      FilterGet(m[1..], k, p);
      if m[0].0 == k {
        HasIsMember(m[1..], k);
        assert !Has(m[1..], k);
      }
    }
  }

  // ----- Sorting

  lemma {:induction false} InsertFilter<T>(x: T, s: seq<T>, key: T -> int, p: T -> bool)
    ensures |Filter(InsertBy(x, s, key), p)| == |Filter(s, p)| + (if p(x) then 1 else 0)
  {
    if !(s == [] || key(x) <= key(s[0])) {
      InsertFilter(x, s[1..], key, p);
      assert InsertBy(x, s, key)[1..] == InsertBy(x, s[1..], key);
    } else {
      assert InsertBy(x, s, key)[1..] == s;
    }
  }

  lemma {:induction false} SortFilter<T>(s: seq<T>, key: T -> int, p: T -> bool)
    ensures |Filter(SortBy(s, key), p)| == |Filter(s, p)|
  {
    if s != [] {
      SortFilter(s[1..], key, p);
      InsertFilter(s[0], SortBy(s[1..], key), key, p);
    }
  }

  ghost predicate Separate<T>(s: seq<T>, key: T -> int) {
    forall i, j :: 0 <= i < j < |s| ==> key(s[i]) != key(s[j])
  }

  lemma {:induction false} SortSorted<T>(s: seq<T>, key: T -> int)
    requires Separate(s, key)
    ensures Ascending(SortBy(s, key), key)
  {
    if s != [] {
      SortSorted(s[1..], key);
      forall y | y in SortBy(s[1..], key) ensures key(y) != key(s[0]) {
        SortHas(s[1..], key, y);
        var k :| 0 <= k < |s[1..]| && s[1..][k] == y;
        assert s[k + 1] == y;
      }
      InsertSorted(s[0], SortBy(s[1..], key), key);
    }
  }

  /** In ascending order the elements after the `i`-th are the larger ones. */
  lemma {:induction false} LargerAfter<T>(s: seq<T>, key: T -> int, i: nat, p: T -> bool)
    requires Ascending(s, key) && i < |s| && forall x :: x in s ==> (p(x) <==> key(x) > key(s[i]))
    ensures |Filter(s, p)| == |s| - 1 - i
  {
    if i == 0 {
      forall x | x in s[1..] ensures p(x) {
        var k :| 0 <= k < |s[1..]| && s[1..][k] == x;
        assert key(s[0]) < key(s[k + 1]);
      }
      FilterAll(s[1..], p);
      assert s[0] in s;
    } else {
      assert s[0] in s && key(s[0]) < key(s[i]);
      LargerAfter(s[1..], key, i - 1, p);
    }
  }

  // ----- What finishing evicts

  function FinishedValue(): WorkItem -> bool { (w: WorkItem) => w.finishedOrdinal.Some? }
  function NewerValue(ordinal: int): WorkItem -> bool { (w: WorkItem) => FinishedAfter(w, ordinal) }

  /** Rows by their own ids, with an outcome exactly when finished, no two finished at once, none after `ordinal`. */
  ghost predicate TableOk(work: OMap<string, WorkItem>, ordinal: int) {
    && Distinct(work)
    && (forall e :: e in work ==>
        e.0 == e.1.workId && (IsFinished(e.1) <==> e.1.outcome.Some?)
        && (IsFinished(e.1) ==> FinishedOrdinal(e.1) <= ordinal))
    && (forall i, j :: 0 <= i < j < |work| && IsFinished(work[i].1) && IsFinished(work[j].1) ==>
          FinishedOrdinal(work[i].1) != FinishedOrdinal(work[j].1))
  }

  lemma {:induction false} ValuesFilter(work: OMap<string, WorkItem>, ordinal: int)
    ensures |Filter(Values(work), NewerValue(ordinal))| == CountNewer(work, ordinal)
  {
    if work != [] { ValuesFilter(work[1..], ordinal); }
  }

  lemma {:induction false} ValuesHas(work: OMap<string, WorkItem>, w: WorkItem)
    ensures w in Values(work) <==> exists i :: 0 <= i < |work| && work[i].1 == w
  {
    ValuesAt(work);
    if i :| 0 <= i < |work| && work[i].1 == w { assert Values(work)[i] == w; }
  }

  lemma {:induction false} FilterSeparate(work: OMap<string, WorkItem>)
    requires forall i, j :: 0 <= i < j < |work| && IsFinished(work[i].1) && IsFinished(work[j].1) ==>
          FinishedOrdinal(work[i].1) != FinishedOrdinal(work[j].1)
    ensures Separate(Filter(Values(work), FinishedValue()), FinishedOrdinal)
  {
    if work != [] {
      FilterSeparate(work[1..]);
      var t := Filter(Values(work[1..]), FinishedValue());
      if IsFinished(work[0].1) {
        forall j | 0 <= j < |t| ensures FinishedOrdinal(work[0].1) != FinishedOrdinal(t[j]) {
          assert t[j] in t && t[j] in Values(work[1..]);
          ValuesHas(work[1..], t[j]);
          var k :| 0 <= k < |work[1..]| && work[1..][k].1 == t[j];
          assert work[k + 1].1 == t[j];
        }
      }
    }
  }

  /** The finished items, oldest first. */
  function ByFinish(work: OMap<string, WorkItem>): seq<WorkItem> {
    SortBy(Filter(Values(work), FinishedValue()), FinishedOrdinal)
  }

  /** In finish order, an item has as many newer ones as follow it. */
  lemma {:induction false} NewerFollow(work: OMap<string, WorkItem>, ordinal: int, i: nat)
    requires TableOk(work, ordinal) && i < |ByFinish(work)|
    ensures CountNewer(work, FinishedOrdinal(ByFinish(work)[i])) == |ByFinish(work)| - 1 - i
  {
    var values, sorted := Values(work), ByFinish(work);
    var finished := Filter(values, FinishedValue());
    var o := FinishedOrdinal(sorted[i]);
    FilterSeparate(work);
    SortSorted(finished, FinishedOrdinal);
    forall w | w in sorted ensures NewerValue(o)(w) <==> FinishedOrdinal(w) > o {
      SortHas(finished, FinishedOrdinal, w);
    }
    LargerAfter(sorted, FinishedOrdinal, i, NewerValue(o));
    SortFilter(finished, FinishedOrdinal, NewerValue(o));
    FilterFilter(values, FinishedValue(), NewerValue(o));
    FilterSame(values, Both(FinishedValue(), NewerValue(o)), NewerValue(o));
    ValuesFilter(work, o);
  }

  /** Finishing evicts exactly the finished items with 64 or more newer ones. */
  lemma {:induction false} OverdueAre(work: OMap<string, WorkItem>, ordinal: int, w: WorkItem)
    requires TableOk(work, ordinal)
    ensures w in Overdue(work) <==> w in Values(work) && !Current(work, w)
  {
    var sorted := ByFinish(work);
    var finished := Filter(Values(work), FinishedValue());
    SortHas(finished, FinishedOrdinal, w);
    OverdueIsPrefix(work);
    if w in sorted {
      var i :| 0 <= i < |sorted| && sorted[i] == w;
      NewerFollow(work, ordinal, i);
      if |sorted| > WORK_FINISHED_MAX {
        var n := |sorted| - WORK_FINISHED_MAX;
        if i < n { assert sorted[..n][i] == w; }
        if w in sorted[..n] {
          var j :| 0 <= j < n && sorted[..n][j] == w;
          NewerFollow(work, ordinal, j);
        }
      }
    }
  }

  lemma {:induction false} OverdueIsPrefix(work: OMap<string, WorkItem>)
    ensures var sorted := ByFinish(work);
            Overdue(work) == if |sorted| <= WORK_FINISHED_MAX then [] else sorted[..|sorted| - WORK_FINISHED_MAX]
  {
    FilterSame(Values(work), (w: WorkItem) => w.finishedOrdinal.Some?, FinishedValue());
  }

  function NotListed(items: seq<WorkItem>): Row -> bool { (e: Row) => forall w :: w in items ==> w.workId != e.0 }

  function Unlike(id: string): Row -> bool { (e: Row) => e.0 != id }

  lemma {:induction false} RemoveAllIsFilter(work: OMap<string, WorkItem>, items: seq<WorkItem>)
    ensures RemoveAll(work, items) == Filter(work, NotListed(items))
    decreases items
  {
    if items == [] {
      FilterAll(work, NotListed(items));
    } else {
      var id := items[0].workId;
      RemoveIsFilter(work, id);
      RemoveAllIsFilter(Remove(work, id), items[1..]);
      FilterSame(work, (e: Row) => e.0 != id, Unlike(id));
      FilterFilter(work, Unlike(id), NotListed(items[1..]));
      FilterSame(work, Both(Unlike(id), NotListed(items[1..])), NotListed(items));
    }
  }

  /** Eviction is restriction to the current items. */
  lemma {:induction false} EvictionBounds(work: OMap<string, WorkItem>, ordinal: int)
    requires TableOk(work, ordinal)
    ensures RemoveAll(work, Overdue(work)) == Bounded(work)
  {
    var items := Overdue(work);
    RemoveAllIsFilter(work, items);
    forall e | e in work ensures NotListed(items)(e) <==> CurrentIn(work)(e) {
      OverdueRow(work, ordinal, e);
    }
    FilterSame(work, NotListed(items), CurrentIn(work));
  }

  lemma {:induction false} OverdueRow(work: OMap<string, WorkItem>, ordinal: int, e: Row)
    requires TableOk(work, ordinal) && e in work
    ensures (exists w :: w in Overdue(work) && w.workId == e.0) <==> !Current(work, e.1)
  {
    var k :| 0 <= k < |work| && work[k] == e;
    ValuesHas(work, e.1);
    OverdueAre(work, ordinal, e.1);
    if w :| w in Overdue(work) && w.workId == e.0 {
      OverdueAre(work, ordinal, w);
      ValuesHas(work, w);
      var i :| 0 <= i < |work| && work[i].1 == w;
      assert work[i] in work;
      assert i == k;
    }
  }

  function FinishedRow(): Row -> bool { (e: Row) => IsFinished(e.1) }
  function CurrentFinished(work: OMap<string, WorkItem>): WorkItem -> bool { (w: WorkItem) => IsFinished(w)
      && Current(work, w) }

  lemma {:induction false} ValuesFilterRows(rows: OMap<string, WorkItem>, work: OMap<string, WorkItem>)
    ensures |Filter(rows, Both(CurrentIn(work), FinishedRow()))| == |Filter(Values(rows), CurrentFinished(work))|
  {
    if rows != [] { ValuesFilterRows(rows[1..], work); }
  }

  /** The restriction holds all finished items, or 64 of them. */
  lemma {:induction false} KeepsNewest(work: OMap<string, WorkItem>, ordinal: int)
    requires TableOk(work, ordinal)
    ensures var all := |Filter(work, FinishedRow())|;
            |Filter(Bounded(work), FinishedRow())| == if all <= WORK_FINISHED_MAX then all else WORK_FINISHED_MAX
  {
    var sorted := ByFinish(work);
    var p := CurrentFinished(work);
    FilterFilter(work, CurrentIn(work), FinishedRow());
    ValuesFilterRows(work, work);
    FilterFilter(Values(work), FinishedValue(), p);
    FilterSame(Values(work), Both(FinishedValue(), p), p);
    SortFilter(Filter(Values(work), FinishedValue()), FinishedOrdinal, p);
    FinishedCount(work);
    var n := if |sorted| <= WORK_FINISHED_MAX then 0 else |sorted| - WORK_FINISHED_MAX;
    forall i | 0 <= i < |sorted| ensures p(sorted[i]) <==> i >= n {
      NewerFollow(work, ordinal, i);
      assert sorted[i] in sorted;
      SortHas(Filter(Values(work), FinishedValue()), FinishedOrdinal, sorted[i]);
    }
    SuffixCount(sorted, p, n);
  }

  lemma {:induction false} ValuesFinished(work: OMap<string, WorkItem>)
    ensures |Filter(work, FinishedRow())| == |Filter(Values(work), FinishedValue())|
  {
    if work != [] { ValuesFinished(work[1..]); }
  }

  lemma {:induction false} SortLength<T>(s: seq<T>, key: T -> int)
    ensures |SortBy(s, key)| == |s|
  {
    if s != [] {
      SortLength(s[1..], key);
      InsertHas(s[0], SortBy(s[1..], key), key, s[0]);
    }
  }

  lemma {:induction false} FinishedCount(work: OMap<string, WorkItem>)
    ensures |ByFinish(work)| == |Filter(work, FinishedRow())|
  {
    ValuesFinished(work);
    SortLength(Filter(Values(work), FinishedValue()), FinishedOrdinal);
  }

  lemma {:induction false} SuffixCount<T>(s: seq<T>, p: T -> bool, n: nat)
    requires n <= |s| && forall i :: 0 <= i < |s| ==> (p(s[i]) <==> i >= n)
    ensures |Filter(s, p)| == |s| - n
  {
    assert s == s[..n] + s[n..];
    FilterConcat(s[..n], s[n..], p);
    FilterNone(s[..n], p);
    FilterAll(s[n..], p);
  }

  // ----- Each kind of entry

  lemma {:induction false} CountAppended(work: OMap<string, WorkItem>, row: Row, ordinal: int)
    ensures CountNewer(work + [row], ordinal) ==
        CountNewer(work, ordinal) + (if FinishedAfter(row.1, ordinal) then 1 else 0)
  {
    FilterConcat(work, [row], Newer(ordinal));
  }

  lemma {:induction false} TableRow(work: OMap<string, WorkItem>, ordinal: int, id: string)
    requires TableOk(work, ordinal) && Has(work, id)
    ensures (id, Get(work, id).value) in work && Get(work, id).value.workId == id
  {
    GetIsMember(work, id);
  }

  /** A table and the table kept of it hold the same open items. */
  lemma {:induction false} KeptItem(work: OMap<string, WorkItem>, ordinal: int, id: string)
    requires TableOk(work, ordinal)
    ensures Has(Bounded(work), id) ==> Get(Bounded(work), id) == Get(work, id)
    ensures Has(work, id) && Current(work, Get(work, id).value) ==> Get(Bounded(work), id) == Get(work, id)
    ensures Has(work, id) && Get(work, id).value.outcome.None? ==> Current(work, Get(work, id).value)
  {
    FilterGet(work, id, CurrentIn(work));
    if Has(work, id) { TableRow(work, ordinal, id); }
  }

  lemma {:induction false} StartBoth(work: OMap<string, WorkItem>, p: WorkStart, ordinal: int, e: nat,
      timestamp: string)
    requires TableOk(work, ordinal) && ordinal < e && !Has(work, p.workId)
    ensures TableOk(StartWork(work, p, e, timestamp), e)
    ensures StartWork(Bounded(work), p, e, timestamp) == Bounded(StartWork(work, p, e, timestamp))
  {
    var row := (p.workId,
        WorkItem(p.workId, p.facts, p.child, p.state, None, None, None, None, None, e, e, None, timestamp, None));
    var next := work + [row];
    KeptItem(work, ordinal, p.workId);
    PutNew(work, p.workId, row.1);
    PutNew(Bounded(work), p.workId, row.1);
    PutKeeps(work, p.workId, row.1);
    forall x | x in work ensures CurrentIn(next)(x) <==> CurrentIn(work)(x) {
      CountAppended(work, row, FinishedOrdinal(x.1));
    }
    FilterSame(work, CurrentIn(next), CurrentIn(work));
    FilterConcat(work, [row], CurrentIn(next));
  }

  /** An open item rewritten, still open. */
  lemma {:induction false} RewriteBoth(work: OMap<string, WorkItem>, item: WorkItem, ordinal: int)
    requires TableOk(work, ordinal) && Has(work, item.workId)
    requires !IsFinished(Get(work, item.workId).value) && !IsFinished(item) && item.outcome.None?
    ensures TableOk(Put(work, item.workId, item), ordinal)
    ensures Put(Bounded(work), item.workId, item) == Bounded(Put(work, item.workId, item))
  {
    var id := item.workId;
    var next := Put(work, id, item);
    RewrittenTable(work, item, ordinal, ordinal);
    FilterPut(work, id, item, CurrentIn(work));
    forall x | x in next ensures CurrentIn(next)(x) <==> CurrentIn(work)(x) {
      FilterPutOut(work, id, item, Newer(FinishedOrdinal(x.1)));
    }
    FilterSame(next, CurrentIn(next), CurrentIn(work));
  }

  lemma {:induction false} RewrittenTable(work: OMap<string, WorkItem>, item: WorkItem, ordinal: int, now: int)
    requires TableOk(work, ordinal) && Has(work, item.workId) && ordinal <= now
    requires IsFinished(item) <==> item.outcome.Some?
    requires IsFinished(item) ==> ordinal < FinishedOrdinal(item) <= now
    ensures TableOk(Put(work, item.workId, item), now)
  {
    var next := Put(work, item.workId, item);
    var i := PutExisting(work, item.workId, item);
    PutKeeps(work, item.workId, item);
    forall a, b | 0 <= a < b < |next| && IsFinished(next[a].1) && IsFinished(next[b].1)
      ensures FinishedOrdinal(next[a].1) != FinishedOrdinal(next[b].1)
    {
      assert work[a] in work && work[b] in work;
    }
  }

  /** Known by this id, open, or current in `before`. */
  function StillKept(before: OMap<string, WorkItem>, id: string): Row -> bool {
    (e: Row) => e.0 == id || Current(before, e.1)
  }

  lemma {:induction false} FinishBoth(work: OMap<string, WorkItem>, item: WorkItem, ordinal: int, e: nat)
    requires TableOk(work, ordinal) && ordinal < e && Has(work, item.workId)
        && !IsFinished(Get(work, item.workId).value)
    requires item.finishedOrdinal == Some(e) && item.outcome.Some?
    ensures TableOk(Put(work, item.workId, item), e)
    ensures var done := Put(Bounded(work), item.workId, item);
            RemoveAll(done, Overdue(done)) == Bounded(Put(work, item.workId, item))
  {
    var id := item.workId;
    var next := Put(work, id, item);
    var done := Put(Bounded(work), id, item);
    RewrittenTable(work, item, ordinal, e);
    DoneIsFilter(work, item, ordinal);
    FilteredTable(next, e, StillKept(work, id));
    EvictionBounds(done, e);
    FilterFilter(next, StillKept(work, id), CurrentIn(done));
    forall x | x in next ensures Both(StillKept(work, id), CurrentIn(done))(x) <==> CurrentIn(next)(x) {
      SameAge(work, item, ordinal, e, x);
    }
    FilterSame(next, Both(StillKept(work, id), CurrentIn(done)), CurrentIn(next));
  }

  lemma {:induction false} DoneIsFilter(work: OMap<string, WorkItem>, item: WorkItem, ordinal: int)
    requires TableOk(work, ordinal) && Has(work, item.workId) && !IsFinished(Get(work, item.workId).value)
    ensures Put(Bounded(work), item.workId, item) == Filter(Put(work, item.workId, item), StillKept(work, item.workId))
  {
    var id := item.workId;
    TableRow(work, ordinal, id);
    forall x | x in work ensures StillKept(work, id)(x) <==> CurrentIn(work)(x) {
      if x.0 == id { OneRow(work, x, id); }
    }
    FilterSame(work, StillKept(work, id), CurrentIn(work));
    FilterPut(work, id, item, StillKept(work, id));
  }

  lemma {:induction false} OneRow(work: OMap<string, WorkItem>, x: Row, id: string)
    requires Distinct(work) && x in work && x.0 == id
    ensures Get(work, id) == Some(x.1)
  {
    var i :| 0 <= i < |work| && work[i] == x;
    GetAt(work, i);
  }

  lemma {:induction false} FilteredTable(work: OMap<string, WorkItem>, ordinal: int, p: Row -> bool)
    requires TableOk(work, ordinal)
    ensures TableOk(Filter(work, p), ordinal)
  {
    if work != [] {
      FilteredTable(work[1..], ordinal, p);
      var t := Filter(work[1..], p);
      forall j | 0 <= j < |t| ensures t[j].0 != work[0].0
          && (IsFinished(work[0].1) && IsFinished(t[j].1) ==> FinishedOrdinal(work[0].1) != FinishedOrdinal(t[j].1)) {
        assert t[j] in t && t[j] in work[1..];
        var k :| 0 <= k < |work[1..]| && work[1..][k] == t[j];
        assert work[k + 1] == t[j];
      }
    }
  }

  /** Among the rows still kept, a finished row has exactly the newer ones it has in the whole table. */
  lemma {:induction false} SameAge(work: OMap<string, WorkItem>, item: WorkItem, ordinal: int, e: nat, x: Row)
    requires TableOk(work, ordinal) && ordinal < e && Has(work, item.workId)
        && !IsFinished(Get(work, item.workId).value)
    requires item.finishedOrdinal == Some(e) && x in Put(work, item.workId, item)
    requires Put(Bounded(work), item.workId, item) == Filter(Put(work, item.workId, item), StillKept(work, item.workId))
    ensures var done, next := Put(Bounded(work), item.workId, item), Put(work, item.workId, item);
            StillKept(work, item.workId)(x) && Current(done, x.1) <==> Current(next, x.1)
  {
    var id := item.workId;
    var done, next := Put(Bounded(work), id, item), Put(work, id, item);
    var o := FinishedOrdinal(x.1);
    PutKeeps(work, id, item);
    if IsFinished(x.1) {
      if StillKept(work, id)(x) {
        FilterFilter(next, StillKept(work, id), Newer(o));
        forall y | y in next && Newer(o)(y) ensures StillKept(work, id)(y) {
          NewerIsKept(work, item, ordinal, e, x, y);
        }
        FilterSame(next, Both(StillKept(work, id), Newer(o)), Newer(o));
      } else {
        assert !FinishedAfter(Get(work, id).value, o);
        FilterPutIn(work, id, item, Newer(o));
      }
    }
  }

  lemma {:induction false} NewerIsKept(work: OMap<string, WorkItem>, item: WorkItem, ordinal: int, e: nat, x: Row,
      y: Row)
    requires TableOk(work, ordinal) && ordinal < e && item.finishedOrdinal == Some(e) && Has(work, item.workId)
    requires x in Put(work, item.workId, item) && y in Put(work, item.workId, item)
    requires IsFinished(x.1) && StillKept(work, item.workId)(x) && Newer(FinishedOrdinal(x.1))(y)
    ensures StillKept(work, item.workId)(y)
  {
    var id := item.workId;
    PutKeeps(work, id, item);
    if y.0 != id {
      assert y in work && FinishedOrdinal(y.1) <= ordinal;
      if x.0 == id {
        GetPut(work, id, item, id);
        OneRow(Put(work, id, item), x, id);
      }
      assert x.0 != id && Current(work, x.1);
      FilterWeaker(work, Newer(FinishedOrdinal(y.1)), Newer(FinishedOrdinal(x.1)));
    }
  }

  // ----- Every run

  function Starts(step: ClientStep): Option<string> {
    if step.FoldEntry? && step.entry.body.WorkStarted?
        && step.entry.body.start.Some? then Some(step.entry.body.start.value.workId) else None
  }

  ghost predicate StartsOnce(steps: seq<ClientStep>) {
    forall i, j :: 0 <= i < j < |steps| && Starts(steps[i]).Some? ==> Starts(steps[i]) != Starts(steps[j])
  }

  lemma {:induction false} KeepAllKeys(work: OMap<string, WorkItem>, e: Entry, id: string, at: int)
    requires TableOk(work, at)
    ensures Has(KeepAll(work, e), id) ==> Has(work, id) || Starts(FoldEntry(e)) == Some(id)
  {
    match e.body
    case WorkStarted(Some(p)) =>
      if !Has(work,
          p.workId) { GetPut(work, p.workId,
          WorkItem(p.workId, p.facts, p.child, p.state, None, None, None, None, None, e.ordinal, e.ordinal, None,
          e.timestamp, None), id); }
    case WorkCheckpoint(Some(p)) => CheckpointKeys(work, p, e.ordinal, id, at);
    case WorkFinished(Some(p)) =>
      var item := Get(work, p.workId);
      if item.Some? { TableRow(work, at, p.workId); GetPut(work, p.workId,
          Finished(item.value, p, e.ordinal, e.timestamp), id); }
    case _ =>
  }

  function Updated(item: WorkItem, p: WorkUpdate, ordinal: nat): WorkItem {
    item.(state := if p.state.Some? then p.state.value else item.state,
          progress := OrElse(p.progress, item.progress),
          detail := OrElse(p.detail, item.detail),
          child := OrElse(p.child, item.child),
          updatedOrdinal := ordinal)
  }

  lemma {:induction false} CheckpointKeys(work: OMap<string, WorkItem>, p: WorkUpdate, ordinal: nat, id: string,
      at: int)
    requires TableOk(work, at)
    ensures Has(CheckpointWork(work, p, ordinal), id) ==> Has(work, id)
  {
    var item := Get(work, p.workId);
    if item.Some? { TableRow(work, at, p.workId); GetPut(work, p.workId, Updated(item.value, p, ordinal), id); }
  }

  lemma {:induction false} CheckpointBoth(work: OMap<string, WorkItem>, p: WorkUpdate, ordinal: int, e: nat)
    requires TableOk(work, ordinal)
    ensures TableOk(CheckpointWork(work, p, e), ordinal)
    ensures CheckpointWork(Bounded(work), p, e) == Bounded(CheckpointWork(work, p, e))
  {
    KeptItem(work, ordinal, p.workId);
    var item := Get(work, p.workId);
    if item.Some? && item.value.outcome.None? {
      TableRow(work, ordinal, p.workId);
      RewriteBoth(work, Updated(item.value, p, e), ordinal);
    }
  }

  lemma {:induction false} FinishWorkBoth(work: OMap<string, WorkItem>, p: WorkEnd, ordinal: int, e: nat,
      timestamp: string)
    requires TableOk(work, ordinal) && ordinal < e
    ensures TableOk(FinishItem(work, p, e, timestamp), e)
    ensures FinishWork(Bounded(work), p, e, timestamp) == Bounded(FinishItem(work, p, e, timestamp))
  {
    KeptItem(work, ordinal, p.workId);
    var item := Get(work, p.workId);
    if item.Some? && item.value.outcome.None? {
      TableRow(work, ordinal, p.workId);
      FinishBoth(work, Finished(item.value, p, e, timestamp), ordinal, e);
    }
  }

  /** Starting an id does the same to both tables unless its item was evicted. */
  lemma {:induction false} StartUnlessEvicted(work: OMap<string, WorkItem>, p: WorkStart, ordinal: int, e: nat,
      timestamp: string)
    requires TableOk(work, ordinal) && ordinal < e
    ensures TableOk(StartWork(work, p, e, timestamp), e)
    ensures !Evicted(work, p.workId) ==>
              StartWork(Bounded(work), p, e, timestamp) == Bounded(StartWork(work, p, e, timestamp))
  {
    KeptItem(work, ordinal, p.workId);
    if !Has(work, p.workId) { StartBoth(work, p, ordinal, e, timestamp); }
  }

  /** The unbounded table knows the item, the kept one does not. */
  predicate Evicted(work: OMap<string, WorkItem>, id: string) {
    Has(work, id) && !Has(Bounded(work), id)
  }

  lemma {:induction false} EntryBoth(r: Records, work: OMap<string, WorkItem>, e: Entry, ordinal: nat)
    requires TableOk(work, ordinal) && ordinal < e.ordinal
    ensures TableOk(KeepAll(work, e), e.ordinal)
    ensures r.work == Bounded(work) && !Restarts(work, FoldEntry(e)) ==>
        ApplyRecords(r, e).work == Bounded(KeepAll(work, e))
  {
    assert TableOk(work, e.ordinal);
    match e.body
    case WorkStarted(Some(p)) => StartUnlessEvicted(work, p, ordinal, e.ordinal, e.timestamp);
    case WorkCheckpoint(Some(p)) => CheckpointBoth(work, p, e.ordinal, e.ordinal);
    case WorkFinished(Some(p)) => FinishWorkBoth(work, p, ordinal, e.ordinal, e.timestamp);
    case _ =>
  }

  /** The step starts an id whose item was evicted. */
  predicate Restarts(work: OMap<string, WorkItem>, step: ClientStep) {
    Starts(step).Some? && Evicted(work, Starts(step).value)
  }

  function KeepAllStep(work: OMap<string, WorkItem>, step: ClientStep): OMap<string, WorkItem> {
    if step.FoldEntry? then KeepAll(work, step.entry) else work
  }

  /** No step of the run starts an id whose item was evicted by then. */
  predicate NoRestart(work: OMap<string, WorkItem>, steps: seq<ClientStep>)
    decreases steps
  {
    steps == [] || (!Restarts(work, steps[0]) && NoRestart(KeepAllStep(work, steps[0]), steps[1..]))
  }

  /** The kept table is the unbounded one restricted, now and after every step. */
  predicate BoundedThroughout(s: ClientState, work: OMap<string, WorkItem>, steps: seq<ClientStep>)
    decreases steps
  {
    && s.records.work == Bounded(work)
    && (steps == [] ||
        (Step(s, steps[0]).Ok? && BoundedThroughout(Step(s, steps[0]).value, KeepAllStep(work, steps[0]), steps[1..])))
  }

  /** One step keeps the two tables together exactly when it restarts no evicted item. */
  lemma {:induction false} StepBothIff(s: ClientState, work: OMap<string, WorkItem>, step: ClientStep)
    requires TableOk(work, s.ordinal) && s.records.work == Bounded(work) && Step(s, step).Ok?
    ensures TableOk(KeepAllStep(work, step), Step(s, step).value.ordinal)
    ensures Step(s, step).value.records.work == Bounded(KeepAllStep(work, step)) <==> !Restarts(work, step)
  {
    if step.FoldEntry? {
      var e := step.entry;
      ApplyFields(s, e);
      EntryBoth(s.records, work, e, s.ordinal);
      if Restarts(work, step) { RestartIff(work, e.body.start.value, s.ordinal, e.ordinal, e.timestamp); }
    }
  }

  /** The tables agree at every point of a run exactly when no step restarts an evicted item. */
  lemma {:induction false} WorkRunIff(s: ClientState, work: OMap<string, WorkItem>, steps: seq<ClientStep>)
    requires TableOk(work, s.ordinal) && s.records.work == Bounded(work) && Run(s, steps).Ok?
    ensures BoundedThroughout(s, work, steps) <==> NoRestart(work, steps)
    ensures NoRestart(work, steps) ==> Run(s, steps).value.records.work == Bounded(KeepAllRun(work, steps))
    decreases steps
  {
    if steps != [] {
      StepBothIff(s, work, steps[0]);
      if !Restarts(work, steps[0]) {
        WorkRunIff(Step(s, steps[0]).value, KeepAllStep(work, steps[0]), steps[1..]);
      } else {
        NotBounded(Step(s, steps[0]).value, KeepAllStep(work, steps[0]), steps[1..]);
      }
    }
  }

  lemma {:induction false} NotBounded(s: ClientState, work: OMap<string, WorkItem>, steps: seq<ClientStep>)
    requires s.records.work != Bounded(work)
    ensures !BoundedThroughout(s, work, steps)
  {
  }

  /**
   * Bounded work table: over every run, the table is at every point the unbounded one without the
   * finished items that 64 or more finished after, if and only if no step starts an id whose item was
   * evicted by then.
   */
  lemma {:induction false} BoundedWorkTable(steps: seq<ClientStep>)
    requires Run(EMPTY, steps).Ok?
    ensures BoundedThroughout(EMPTY, [], steps) <==> NoRestart([], steps)
    ensures NoRestart([], steps) ==> Run(EMPTY, steps).value.records.work == Bounded(KeepAllRun([], steps))
  {
    WorkRunIff(EMPTY, [], steps);
  }

  /** No step starts an id the table knows, and none starts one twice. */
  ghost predicate FreshStarts(work: OMap<string, WorkItem>, steps: seq<ClientStep>) {
    && (forall i :: 0 <= i < |steps| && Starts(steps[i]).Some? ==> !Has(work, Starts(steps[i]).value))
    && StartsOnce(steps)
  }

  /** When each work id starts at most once nothing is restarted. */
  lemma {:induction false} FreshIsNoRestart(s: ClientState, work: OMap<string, WorkItem>, steps: seq<ClientStep>)
    requires TableOk(work, s.ordinal) && FreshStarts(work, steps) && Run(s, steps).Ok?
    ensures NoRestart(work, steps)
    decreases steps
  {
    if steps != [] {
      var next := KeepAllStep(work, steps[0]);
      assert TableOk(next, Step(s, steps[0]).value.ordinal) by {
        if steps[0].FoldEntry? {
          ApplyFields(s, steps[0].entry);
          EntryBoth(s.records, work, steps[0].entry, s.ordinal);
        }
      }
      forall i | 0 <= i < |steps[1..]| && Starts(steps[1..][i]).Some? ensures !Has(next, Starts(steps[1..][i]).value) {
        assert steps[1..][i] == steps[i + 1];
        if steps[0].FoldEntry? { KeepAllKeys(work, steps[0].entry, Starts(steps[i + 1]).value, s.ordinal); }
      }
      FreshIsNoRestart(Step(s, steps[0]).value, next, steps[1..]);
    }
  }

  /** An id started again keeps the tables together exactly when its item was not evicted. */
  lemma {:induction false} RestartIff(work: OMap<string, WorkItem>, p: WorkStart, ordinal: nat, e: nat,
      timestamp: string)
    requires TableOk(work, ordinal) && ordinal < e
    ensures StartWork(Bounded(work), p, e, timestamp) == Bounded(StartWork(work, p, e, timestamp)) <==>
        !Evicted(work, p.workId)
  {
    StartUnlessEvicted(work, p, ordinal, e, timestamp);
    if Evicted(work, p.workId) {
      PutNew(Bounded(work), p.workId,
             WorkItem(p.workId, p.facts, p.child, p.state, None, None, None, None, None, e, e, None, timestamp, None));
    }
  }
}
