/** Snapshots: serializing a client state, restoring it, and cutting a run at any point. */
module ClientSnapshot {
  import opened Prelude
  import opened OrderedMaps
  import opened ClientFold

  datatype Snapshot = Snapshot(
    leafId: Option<string>, entries: seq<Entry>, earlier: bool, values: BranchValues, name: Option<string>,
    labels: seq<(string, LabelValue)>, queue: seq<QueuedInput>, forkedFrom: Option<string>, work: Option<seq<WorkItem>>)

  function SnapshotWith(s: ClientState, entries: seq<Entry>, earlier: bool): Snapshot {
    Snapshot(s.leafId, entries, earlier, s.values, s.records.name, s.records.labels, s.records.queue,
        s.records.forkedFrom,
             if s.records.work == [] then None else Some(Values(s.records.work)))
  }

  function TakeSnapshot(s: ClientState): Snapshot {
    SnapshotWith(s, s.entries, s.earlier)
  }

  // ----- Restoring

  /** `new Map(pairs)` */
  function ToMap<V>(pairs: seq<(string, V)>): OMap<string, V> {
    if pairs == [] then [] else Put(ToMap(pairs[..|pairs| - 1]), pairs[|pairs| - 1].0, pairs[|pairs| - 1].1)
  }

  function ById(entries: seq<Entry>): OMap<string, Entry> {
    if entries == [] then [] else ById(entries[..|entries| - 1]) + [(entries[|entries| - 1].id, entries[|entries| - 1])]
  }

  function ByWorkId(items: seq<WorkItem>): seq<(string, WorkItem)> {
    if items == [] then [] else [(items[0].workId, items[0])] + ByWorkId(items[1..])
  }

  function EntryOrdinal(e: Entry): int { e.ordinal }
  function InputOrdinal(q: QueuedInput): int { q.ordinal }
  function StartOrdinal(w: WorkItem): int { w.startedOrdinal }

  /** A snapshot's entries: in ordinal order, within the position, each id once. */
  ghost predicate EntriesOk(ordinal: nat, entries: seq<Entry>) {
    && Ascending(entries, EntryOrdinal)
    && (forall i :: 0 <= i < |entries| ==> 0 < entries[i].ordinal <= ordinal)
    && (forall i, j :: 0 <= i < j < |entries| ==> entries[i].id != entries[j].id)
  }

  /** The state a snapshot describes. */
  function Restored(ordinal: nat, snap: Snapshot): ClientState {
    ClientState(ordinal, snap.entries, ById(snap.entries), snap.earlier, snap.leafId, snap.values,
                Records(snap.name, ToMap(snap.labels), SortBy(snap.queue, InputOrdinal), snap.forkedFrom,
                        ToMap(ByWorkId(SortBy(if snap.work.Some? then snap.work.value else [], StartOrdinal)))),
                if snap.earlier then snap.values else DEFAULT_VALUES)
  }

  lemma {:induction false} ByIdAt(entries: seq<Entry>)
    ensures |ById(entries)| == |entries|
    ensures forall i :: 0 <= i < |entries| ==> ById(entries)[i] == (entries[i].id, entries[i])
    decreases |entries|
  {
    if entries != [] { ByIdAt(entries[..|entries| - 1]); }
  }

  lemma {:induction false} ByIdHas(entries: seq<Entry>, id: string)
    ensures Has(ById(entries), id) <==> exists i :: 0 <= i < |entries| && entries[i].id == id
  {
    ByIdAt(entries);
    HasIsMember(ById(entries), id);
    if i :| 0 <= i < |entries| && entries[i].id == id { assert ById(entries)[i].0 == id; }
    if i :| 0 <= i < |ById(entries)| && ById(entries)[i].0 == id { assert entries[i].id == id; }
  }

  lemma {:induction false} RepeatedId(ordinal: nat, entries: seq<Entry>, n: nat)
    requires n < |entries| && Has(ById(entries[..n]), entries[n].id)
    ensures !EntriesOk(ordinal, entries)
  {
    ByIdHas(entries[..n], entries[n].id);
    var i :| 0 <= i < n && entries[..n][i].id == entries[n].id;
    assert entries[i].id == entries[n].id;
  }

  lemma {:induction false} AdoptOne(ordinal: nat, entries: seq<Entry>, n: nat, previous: nat)
    requires n < |entries| && EntriesOk(ordinal, entries[..n]) && !Has(ById(entries[..n]), entries[n].id)
    requires previous == (if n == 0 then 0 else entries[n - 1].ordinal) && previous < entries[n].ordinal <= ordinal
    ensures entries[..n + 1] == entries[..n] + [entries[n]] && EntriesOk(ordinal, entries[..n + 1])
    ensures ById(entries[..n + 1]) == ById(entries[..n]) + [(entries[n].id, entries[n])]
  {
    var before := entries[..n];
    assert entries[..n + 1] == before + [entries[n]];
    assert EntriesOk(previous, before) by { UpToLast(ordinal, before); }
    EntriesSnoc(previous, before, entries[n]);
    PutNew(ById(before), entries[n].id, entries[n]);
  }

  lemma {:induction false} UpToLast(ordinal: nat, entries: seq<Entry>)
    requires EntriesOk(ordinal, entries)
    ensures EntriesOk(if entries == [] then 0 else entries[|entries| - 1].ordinal, entries)
  {
    forall i | 0 <= i < |entries| - 1 ensures EntryOrdinal(entries[i]) < EntryOrdinal(entries[|entries| - 1]) {}
  }

  /** `clientRestore`: the loop checks the entries as it adopts them. */
  method ClientRestore(ordinal: nat, snap: Snapshot) returns (r: Result<ClientState>)
    ensures r.Ok? <==> EntriesOk(ordinal, snap.entries)
    ensures r.Ok? ==> r.value == Restored(ordinal, snap)
  {
    var entries: seq<Entry>, byId: OMap<string, Entry>, previous := [], [], 0;
    for n := 0 to |snap.entries|
      invariant entries == snap.entries[..n] && byId == ById(entries)
      invariant EntriesOk(ordinal, entries)
      invariant previous == if n == 0 then 0 else snap.entries[n - 1].ordinal
    {
      var entry := snap.entries[n];
      if entry.ordinal <= previous {
        assert n > 0 ==> EntryOrdinal(snap.entries[n - 1]) >= EntryOrdinal(snap.entries[n]);
        return Err("expected a later ordinal");
      }
      if entry.ordinal > ordinal { return Err("the snapshot is at an earlier ordinal"); }
      if Has(byId, entry.id) {
        RepeatedId(ordinal, snap.entries, n);
        return Err("duplicate entry id");
      }
      AdoptOne(ordinal, snap.entries, n, previous);
      entries := entries + [entry];
      PutNew(byId, entry.id, entry);
      byId := Put(byId, entry.id, entry);
      previous := entry.ordinal;
    }
    assert snap.entries[..|snap.entries|] == snap.entries;
    var values := snap.values;
    r := Ok(ClientState(ordinal, entries, byId, snap.earlier, snap.leafId, values,
                        Records(snap.name, ToMap(snap.labels), SortBy(snap.queue, InputOrdinal), snap.forkedFrom,
                                ToMap(ByWorkId(SortBy(if snap.work.Some? then snap.work.value else [], StartOrdinal)))),
                        if snap.earlier then values else DEFAULT_VALUES));
  }

  // ----- What every client state keeps

  /** The queue is strictly ordered by admission, with one input per client message. */
  ghost predicate QueueOk(queue: seq<QueuedInput>, ordinal: nat) {
    && Ascending(queue, InputOrdinal)
    && (forall q :: q in queue ==> q.ordinal <= ordinal)
    && (forall i, j :: 0 <= i < j < |queue| ==> queue[i].clientMessageId != queue[j].clientMessageId)
  }

  function PairStart(e: (string, WorkItem)): int { e.1.startedOrdinal }

  /** The work table is in start order, each item under its own id. */
  ghost predicate WorkOk(work: OMap<string, WorkItem>, ordinal: nat) {
    && Distinct(work)
    && Ascending(work, PairStart)
    && (forall e :: e in work ==> e.0 == e.1.workId && e.1.startedOrdinal <= ordinal)
  }

  ghost predicate RecordsOk(r: Records, ordinal: nat) {
    Distinct(r.labels) && QueueOk(r.queue, ordinal) && WorkOk(r.work, ordinal)
  }

  ghost predicate Kept(s: ClientState) {
    EntriesOk(s.ordinal, s.entries) && s.byId == ById(s.entries) && RecordsOk(s.records, s.ordinal)
  }

  // ----- The queue

  lemma {:induction false} WithoutKeeps(queue: seq<QueuedInput>, id: string)
    requires forall i, j :: 0 <= i < j < |queue| ==> queue[i].clientMessageId != queue[j].clientMessageId
    ensures forall i, j :: 0 <= i < j < |Without(queue, id)| ==>
        Without(queue, id)[i].clientMessageId != Without(queue, id)[j].clientMessageId
  {
    if queue != [] {
      WithoutKeeps(queue[1..], id);
      var t := Without(queue[1..], id);
      forall j | 0 <= j < |t| ensures queue[0].clientMessageId != t[j].clientMessageId {
        assert t[j] in t;
        var k :| 0 <= k < |queue[1..]| && queue[1..][k] == t[j];
        assert queue[k + 1] == t[j];
      }
    }
  }

  lemma {:induction false} AdmitHas(queue: seq<QueuedInput>, input: QueuedInput)
    ensures forall q :: q in Admit(queue, input) <==> q == input || q in queue
  {
    if queue != [] && queue[0].ordinal <= input.ordinal { AdmitHas(queue[1..], input); }
  }

  lemma {:induction false} AdmitAscends(queue: seq<QueuedInput>, input: QueuedInput)
    requires Ascending(queue, InputOrdinal) && forall q :: q in queue ==> q.ordinal != input.ordinal
    ensures Ascending(Admit(queue, input), InputOrdinal)
  {
    if queue != [] && queue[0].ordinal <= input.ordinal {
      AdmitAscends(queue[1..], input);
      AdmitHas(queue[1..], input);
      var t := Admit(queue[1..], input);
      forall j | 0 <= j < |t| ensures queue[0].ordinal < t[j].ordinal {
        assert t[j] in t;
        if t[j] in queue[1..] {
          var k :| 0 <= k < |queue[1..]| && queue[1..][k] == t[j];
          assert InputOrdinal(queue[0]) < InputOrdinal(queue[k + 1]);
        }
      }
    }
  }

  lemma {:induction false} AdmitDistinct(queue: seq<QueuedInput>, input: QueuedInput)
    requires forall i, j :: 0 <= i < j < |queue| ==> queue[i].clientMessageId != queue[j].clientMessageId
    requires forall q :: q in queue ==> q.clientMessageId != input.clientMessageId
    ensures forall i, j :: 0 <= i < j < |Admit(queue, input)| ==>
        Admit(queue, input)[i].clientMessageId != Admit(queue, input)[j].clientMessageId
  {
    if queue != [] && queue[0].ordinal <= input.ordinal {
      AdmitDistinct(queue[1..], input);
      AdmitHas(queue[1..], input);
      var t := Admit(queue[1..], input);
      forall j | 0 <= j < |t| ensures queue[0].clientMessageId != t[j].clientMessageId {
        assert t[j] in t;
        if t[j] in queue[1..] {
          var k :| 0 <= k < |queue[1..]| && queue[1..][k] == t[j];
          assert queue[k + 1] == t[j];
        }
      }
    }
  }

  lemma {:induction false} UpsertKeeps(queue: seq<QueuedInput>, input: QueuedInput, ordinal: nat)
    requires QueueOk(queue, ordinal) && input.ordinal <= ordinal
    requires forall q :: q in queue && q.ordinal == input.ordinal ==> q.clientMessageId == input.clientMessageId
    ensures QueueOk(UpsertInput(queue, input), ordinal)
  {
    var rest := Without(queue, input.clientMessageId);
    FilterAscending(queue, (q: QueuedInput) => q.clientMessageId != input.clientMessageId, InputOrdinal);
    WithoutKeeps(queue, input.clientMessageId);
    AdmitHas(rest, input);
    AdmitAscends(rest, input);
    AdmitDistinct(rest, input);
  }

  lemma {:induction false} OrdinalsDistinct(queue: seq<QueuedInput>, a: QueuedInput, b: QueuedInput)
    requires Ascending(queue, InputOrdinal) && a in queue && b in queue && a.ordinal == b.ordinal
    ensures a == b
  {
    var i :| 0 <= i < |queue| && queue[i] == a;
    var j :| 0 <= j < |queue| && queue[j] == b;
    assert i < j ==> InputOrdinal(queue[i]) < InputOrdinal(queue[j]);
    assert j < i ==> InputOrdinal(queue[j]) < InputOrdinal(queue[i]);
  }

  lemma {:induction false} TransitionKeeps(queue: seq<QueuedInput>, id: string, state: InputState, ordinal: nat)
    requires QueueOk(queue, ordinal)
    ensures QueueOk(Transition(queue, id, state), ordinal)
  {
    var existing := FindInput(queue, id);
    if existing.Some? {
      if state.Ended? {
        FilterAscending(queue, (q: QueuedInput) => q.clientMessageId != id, InputOrdinal);
        WithoutKeeps(queue, id);
      } else if existing.value.state != state {
        forall q | q in queue && q.ordinal == existing.value.ordinal ensures q.clientMessageId == id {
          OrdinalsDistinct(queue, q, existing.value);
        }
        UpsertKeeps(queue, existing.value.(state := state), ordinal);
      }
    }
  }

  lemma {:induction false} RemoveInputKeeps(queue: seq<QueuedInput>, id: string, ordinal: nat)
    requires QueueOk(queue, ordinal)
    ensures QueueOk(Without(queue, id), ordinal)
  {
    FilterAscending(queue, (q: QueuedInput) => q.clientMessageId != id, InputOrdinal);
    WithoutKeeps(queue, id);
  }

  // ----- The work table

  lemma {:induction false} PutExisting<V>(m: OMap<string, V>, k: string, v: V) returns (i: nat)
    requires Has(m, k)
    ensures i < |m| && m[i].0 == k && Get(m, k) == Some(m[i].1) && Put(m, k, v) == m[i := (k, v)]
  {
    if m[0].0 == k {
      i := 0;
    } else {
      var j := PutExisting(m[1..], k, v);
      i := j + 1;
    }
  }

  lemma {:induction false} RemoveIsFilter<V>(m: OMap<string, V>, k: string)
    ensures Remove(m, k) == Filter(m, (e: (string, V)) => e.0 != k)
  {
    if m != [] { RemoveIsFilter(m[1..], k); }
  }

  /** An item rewritten in place keeps the table in order. */
  lemma {:induction false} RewriteWorkKeeps(work: OMap<string, WorkItem>, id: string, item: WorkItem, ordinal: nat)
    requires WorkOk(work, ordinal) && Has(work, id) && item.workId == id
        && item.startedOrdinal == Get(work, id).value.startedOrdinal
    ensures WorkOk(Put(work, id, item), ordinal)
  {
    var i := PutExisting(work, id, item);
    PutKeeps(work, id, item);
    var t := Put(work, id, item);
    assert work[i] in work;
    forall a, b | 0 <= a < b < |t| ensures PairStart(t[a]) < PairStart(t[b]) {
      assert PairStart(work[a]) < PairStart(work[b]);
    }
  }

  lemma {:induction false} RemoveWorkKeeps(work: OMap<string, WorkItem>, id: string, ordinal: nat)
    requires WorkOk(work, ordinal)
    ensures WorkOk(Remove(work, id), ordinal)
  {
    RemoveKeeps(work, id);
    RemoveIsFilter(work, id);
    FilterAscending(work, (e: (string, WorkItem)) => e.0 != id, PairStart);
  }

  lemma {:induction false} RemoveAllKeeps(work: OMap<string, WorkItem>, items: seq<WorkItem>, ordinal: nat)
    requires WorkOk(work, ordinal)
    ensures WorkOk(RemoveAll(work, items), ordinal)
    decreases items
  {
    if items != [] {
      RemoveWorkKeeps(work, items[0].workId, ordinal);
      RemoveAllKeeps(Remove(work, items[0].workId), items[1..], ordinal);
    }
  }

  lemma {:induction false} StartWorkKeeps(work: OMap<string, WorkItem>, p: WorkStart, ordinal: nat, e: nat,
      timestamp: string)
    requires WorkOk(work, ordinal) && ordinal < e
    ensures WorkOk(StartWork(work, p, e, timestamp), e)
  {
    if !Has(work, p.workId) {
      var item := WorkItem(p.workId, p.facts, p.child, p.state, None, None, None, None, None, e, e, None, timestamp,
          None);
      var t := Put(work, p.workId, item);
      PutNew(work, p.workId, item);
      PutKeeps(work, p.workId, item);
      forall a, b | 0 <= a < b < |t| ensures PairStart(t[a]) < PairStart(t[b]) {
        assert work[a] in work;
        if b < |work| { assert PairStart(work[a]) < PairStart(work[b]); }
      }
    }
  }

  lemma {:induction false} CheckpointWorkKeeps(work: OMap<string, WorkItem>, p: WorkUpdate, ordinal: nat, e: nat)
    requires WorkOk(work, ordinal)
    ensures WorkOk(CheckpointWork(work, p, e), ordinal)
  {
    var item := Get(work, p.workId);
    if item.Some? && item.value.outcome.None? {
      GetIsMember(work, p.workId);
      RewriteWorkKeeps(work, p.workId, item.value.(
           state := if p.state.Some? then p.state.value else item.value.state,
           progress := OrElse(p.progress, item.value.progress),
           detail := OrElse(p.detail, item.value.detail),
           child := OrElse(p.child, item.value.child),
           updatedOrdinal := e), ordinal);
    }
  }

  lemma {:induction false} FinishWorkKeeps(work: OMap<string, WorkItem>, p: WorkEnd, ordinal: nat, e: nat,
      timestamp: string)
    requires WorkOk(work, ordinal)
    ensures WorkOk(FinishWork(work, p, e, timestamp), ordinal)
  {
    var item := Get(work, p.workId);
    if item.Some? && item.value.outcome.None? {
      GetIsMember(work, p.workId);
      RewriteWorkKeeps(work, p.workId, Finished(item.value, p, e, timestamp), ordinal);
      var done := Put(work, p.workId, Finished(item.value, p, e, timestamp));
      RemoveAllKeeps(done, Overdue(done), ordinal);
    }
  }

  // ----- Every step

  lemma {:induction false} ApplyRecordsKeeps(r: Records, e: Entry, ordinal: nat)
    requires RecordsOk(r, ordinal) && ordinal < e.ordinal
    ensures RecordsOk(ApplyRecords(r, e), e.ordinal)
  {
    assert QueueOk(r.queue, e.ordinal) && WorkOk(r.work, e.ordinal);
    match e.body
    case InputReceipt(Some(p)) =>
      UpsertKeeps(r.queue,
          QueuedInput(p.clientMessageId, Accepted, e.ordinal, Some(p.command), None, p.origin, p.message, p.images),
          e.ordinal);
    case InputQueued(Some(p)) =>
      var existing := FindInput(r.queue, p.clientMessageId);
      UpsertKeeps(r.queue, QueuedInput(p.clientMessageId, Accepted, e.ordinal, if existing.Some?
          then existing.value.command else None,
                                       Some(p.delivery), if existing.Some? then existing.value.origin
                                           else None, p.message, p.images), e.ordinal);
    case InputStateChange(Some(p)) => TransitionKeeps(r.queue, p.0, p.1, e.ordinal);
    case MessageEntry(payload, view) =>
      var id := OrElse(if payload.Some? then payload.value.clientMessageId else None, view);
      if id.Some? { RemoveInputKeeps(r.queue, id.value, e.ordinal); }
    case LabelEntry(Some(p)) =>
      if p.1.Some? && p.1.value != "" { PutKeeps(r.labels, p.0, LabelValue(p.1.value, e.timestamp)); }
      else { RemoveKeeps(r.labels, p.0); }
    case WorkStarted(Some(p)) => StartWorkKeeps(r.work, p, ordinal, e.ordinal, e.timestamp);
    case WorkCheckpoint(Some(p)) => CheckpointWorkKeeps(r.work, p, e.ordinal, e.ordinal);
    case WorkFinished(Some(p)) => FinishWorkKeeps(r.work, p, e.ordinal, e.ordinal, e.timestamp);
    case _ =>
  }

  lemma {:induction false} EntriesSnoc(ordinal: nat, entries: seq<Entry>, e: Entry)
    requires EntriesOk(ordinal, entries) && ordinal < e.ordinal && !Has(ById(entries), e.id)
    ensures EntriesOk(e.ordinal, entries + [e]) && ById(entries + [e]) == Put(ById(entries), e.id, e)
  {
    ByIdHas(entries, e.id);
    PutNew(ById(entries), e.id, e);
    assert (entries + [e])[..|entries|] == entries;
  }

  lemma {:induction false} ApplyKeeps(s: ClientState, e: Entry)
    requires Kept(s) && Apply(s, e).Ok?
    ensures Kept(Apply(s, e).value)
  {
    ApplyRecordsKeeps(s.records, e, s.ordinal);
    EntriesSnoc(s.ordinal, s.entries, e);
    ApplyFields(s, e);
  }

  lemma {:induction false} ApplyFields(s: ClientState, e: Entry)
    requires Apply(s, e).Ok?
    ensures var next := Apply(s, e).value;
            && next.entries == s.entries + [e] && next.byId == Put(s.byId, e.id, e) && next.ordinal == e.ordinal
            && next.records == ApplyRecords(s.records, e)
    ensures s.ordinal < e.ordinal && !Has(s.byId, e.id)
  {
    HeldBranched(Held(s, e), e);
  }

  lemma {:induction false} HeldBranched(s: ClientState, e: Entry)
    ensures var next := Branched(s, e);
            next.entries == s.entries && next.byId == s.byId && next.records == s.records
  {
  }

  lemma {:induction false} RunKeeps(s: ClientState, steps: seq<ClientStep>)
    requires Kept(s)
    ensures Run(s, steps).Ok? ==> Kept(Run(s, steps).value)
    ensures Run(s, steps).Ok? ==> Run(s, steps).value.earlier == s.earlier && Run(s, steps).value.base == s.base
    decreases steps
  {
    if steps != [] {
      var next := Step(s, steps[0]);
      if next.Ok? {
        if steps[0].FoldEntry? { ApplyKeeps(s, steps[0].entry); }
        RunKeeps(next.value, steps[1..]);
      }
    }
  }

  // ----- Round trip

  lemma {:induction false} ToMapDistinct<V>(pairs: seq<(string, V)>)
    requires Distinct(pairs)
    ensures ToMap(pairs) == pairs
    decreases |pairs|
  {
    if pairs != [] {
      var n := |pairs| - 1;
      ToMapDistinct(pairs[..n]);
      HasIsMember(pairs[..n], pairs[n].0);
      forall i | 0 <= i < n ensures pairs[..n][i].0 != pairs[n].0 { assert pairs[..n][i] == pairs[i]; }
      PutNew(pairs[..n], pairs[n].0, pairs[n].1);
    }
  }

  lemma {:induction false} ValuesAt(work: OMap<string, WorkItem>)
    ensures |Values(work)| == |work|
    ensures forall i :: 0 <= i < |work| ==> Values(work)[i] == work[i].1
  {
    if work != [] { ValuesAt(work[1..]); }
  }

  lemma {:induction false} ByWorkIdValues(work: OMap<string, WorkItem>)
    requires forall e :: e in work ==> e.0 == e.1.workId
    ensures ByWorkId(Values(work)) == work
  {
    if work != [] {
      ByWorkIdValues(work[1..]);
      assert work[0] in work;
    }
  }

  /** What a client restored from a state's own snapshot starts its branch values from. */
  function RestoredBase(s: ClientState): BranchValues {
    if s.earlier then s.values else DEFAULT_VALUES
  }

  /**
   * Restoring a state's own snapshot gives everything back but the values before its oldest entry, so the
   * whole state exactly when those are the defaults, or the current values of a bounded client.
   */
  lemma {:induction false} SnapshotRoundTrip(s: ClientState)
    requires Kept(s)
    ensures EntriesOk(s.ordinal, TakeSnapshot(s).entries)
    ensures Restored(s.ordinal, TakeSnapshot(s)) == s.(base := RestoredBase(s))
    ensures Restored(s.ordinal, TakeSnapshot(s)) == s <==> s.base == RestoredBase(s)
  {
    var r := s.records;
    ToMapDistinct(r.labels);
    SortAscending(r.queue, InputOrdinal);
    ValuesAt(r.work);
    forall i, j | 0 <= i < j < |r.work| ensures StartOrdinal(Values(r.work)[i]) < StartOrdinal(Values(r.work)[j]) {
      assert PairStart(r.work[i]) < PairStart(r.work[j]);
    }
    SortAscending(Values(r.work), StartOrdinal);
    ByWorkIdValues(r.work);
    ToMapDistinct(r.work);
    if r.work == [] { assert ByWorkId(SortBy<WorkItem>([], StartOrdinal)) == []; }
  }

  /**
   * Snapshot at any cut: for every run from the empty client and every point of it, restoring the
   * snapshot taken there and going on is never having cut.
   */
  lemma {:induction false} SnapshotAtAnyCut(before: seq<ClientStep>, after: seq<ClientStep>)
    requires Run(EMPTY, before).Ok?
    ensures var s := Run(EMPTY, before).value;
            && EntriesOk(s.ordinal, TakeSnapshot(s).entries)
            && Run(Restored(s.ordinal, TakeSnapshot(s)), after) == Run(EMPTY, before + after)
  {
    RunKeeps(EMPTY, before);
    RunConcat(EMPTY, before, after);
    SnapshotRoundTrip(Run(EMPTY, before).value);
  }
}
