/**
 * `ClientStateBuilder`: a working copy of one client state. Its collections live on the heap and may be
 * shared with the state it started from, so each is copied before it is first written.
 */
module ClientBuilder {
  import opened Prelude
  import opened OrderedMaps
  import opened ClientFold
  import opened ClientBranch

  /** An array or a map object. */
  class Ref<T> {
    var value: T

    constructor (value: T)
      ensures this.value == value
    {
      this.value := value;
    }
  }

  /** A client state as the program holds it: five of its fields are references to collections. */
  datatype StateRef = StateRef(
    ordinal: nat, entries: Ref<seq<Entry>>, byId: Ref<OMap<string, Entry>>, earlier: bool, leafId: Option<string>,
    values: BranchValues, name: Option<string>, labels: Ref<OMap<string, LabelValue>>, queue: Ref<seq<QueuedInput>>,
    forkedFrom: Option<string>, work: Ref<OMap<string, WorkItem>>, base: BranchValues)

  /** The value of a state. */
  ghost function View(s: StateRef): ClientState
    reads s.entries, s.byId, s.labels, s.queue, s.work
  {
    ClientState(s.ordinal, s.entries.value, s.byId.value, s.earlier, s.leafId, s.values,
                Records(s.name, s.labels.value, s.queue.value, s.forkedFrom, s.work.value), s.base)
  }

  ghost function CellsOf(s: StateRef): set<object> {
    {s.entries as object, s.byId as object, s.labels as object, s.queue as object, s.work as object}
  }

  // ----- The place of an input

  lemma {:induction false} AdmitPast(queue: seq<QueuedInput>, input: QueuedInput, i: nat)
    requires i < |queue| && queue[i].ordinal <= input.ordinal
    ensures queue[..i] + Admit(queue[i..], input) == queue[..i + 1] + Admit(queue[i + 1..], input)
  {
    assert queue[i..][0] == queue[i] && queue[i..][1..] == queue[i + 1..];
    assert queue[..i] + [queue[i]] == queue[..i + 1];
  }

  /** `findIndex` then `splice`: before the first input admitted later. */
  method SpliceInput(queue: seq<QueuedInput>, input: QueuedInput) returns (r: seq<QueuedInput>)
    ensures r == Admit(queue, input)
  {
    var i := 0;
    while i < |queue| && queue[i].ordinal <= input.ordinal
      invariant 0 <= i <= |queue|
      invariant Admit(queue, input) == queue[..i] + Admit(queue[i..], input)
    {
      AdmitPast(queue, input, i);
      i := i + 1;
    }
    assert Admit(queue[i..], input) == [input] + queue[i..];
    r := queue[..i] + [input] + queue[i..];
    assert r == queue[..i] + ([input] + queue[i..]);
  }

  lemma {:induction false} WithoutAbsent(queue: seq<QueuedInput>, id: string)
    requires FindInput(queue, id).None?
    ensures Without(queue, id) == queue
  {
    FilterAll(queue, (q: QueuedInput) => q.clientMessageId != id);
  }

  lemma {:induction false} RemoveAllSnoc(work: OMap<string, WorkItem>, items: seq<WorkItem>, n: nat)
    requires n < |items|
    ensures RemoveAll(work, items[..n + 1]) == Remove(RemoveAll(work, items[..n]), items[n].workId)
    decreases n
  {
    if n == 0 {
      assert items[..1][1..] == [];
    } else {
      var rest := items[1..];
      assert items[..n + 1][1..] == rest[..n] && items[..n][1..] == rest[..n - 1];
      RemoveAllSnoc(Remove(work, items[0].workId), rest, n - 1);
    }
  }

  // ----- The builder

  class ClientStateBuilder {
    const basis: StateRef
    var owned: set<object>
    var ordinal: nat
    var entries: Ref<seq<Entry>>
    var byId: Ref<OMap<string, Entry>>
    var leafId: Option<string>
    var values: BranchValues
    var name: Option<string>
    var labels: Ref<OMap<string, LabelValue>>
    var queue: Ref<seq<QueuedInput>>
    var forkedFrom: Option<string>
    var work: Ref<OMap<string, WorkItem>>

    /** Each collection is the basis's own or one this builder made; no collection of the basis is owned. */
    ghost predicate Valid()
      reads this
    {
      && this !in owned && CellsOf(basis) !! owned
      && (entries in owned || entries == basis.entries) && (byId in owned || byId == basis.byId)
      && (labels in owned || labels == basis.labels) && (queue in owned || queue == basis.queue)
      && (work in owned || work == basis.work)
      && (entries == basis.entries ==> byId == basis.byId)
    }

    ghost function RecordsNow(): Records
      reads this, labels, queue, work
    {
      Records(name, labels.value, queue.value, forkedFrom, work.value)
    }

    /** The state the builder stands for. */
    ghost function Now(): ClientState
      reads this, entries, byId, labels, queue, work
    {
      ClientState(ordinal, entries.value, byId.value, basis.earlier, leafId, values, RecordsNow(), basis.base)
    }

    constructor (basis: StateRef)
      ensures Valid() && this.basis == basis && owned == {} && Now() == View(basis)
    {
      this.basis := basis;
      owned := {};
      ordinal, entries, byId, leafId, values := basis.ordinal, basis.entries, basis.byId, basis.leafId, basis.values;
      name, labels, queue, forkedFrom, work := basis.name, basis.labels, basis.queue, basis.forkedFrom, basis.work;
    }

    /** What no call on the records changes. */
    twostate predicate KeepsBranch()
      reads this, entries, byId
    {
      && ordinal == old(ordinal) && leafId == old(leafId) && values == old(values)
      && entries == old(entries) && byId == old(byId) && entries.value == old(entries.value)
          && byId.value == old(byId.value)
    }

    // ----- Writing collections

    method Append(held: Entry)
      requires Valid()
      modifies this`entries, this`owned, owned
      ensures this !in owned && CellsOf(basis) !! owned && fresh(owned - old(owned)) && old(owned) <= owned
      ensures entries in owned && entries.value == old(entries.value) + [held]
      ensures byId.value == old(byId.value) && RecordsNow() == old(RecordsNow())
    {
      if entries in owned {
        entries.value := entries.value + [held];
      } else {
        entries := new Ref(entries.value + [held]);
        owned := owned + {entries};
      }
    }

    method WriteById(id: string, held: Entry)
      requires this !in owned && CellsOf(basis) !! owned && entries in owned
      requires (byId in owned || byId == basis.byId) && (labels in owned || labels == basis.labels)
      requires (queue in owned || queue == basis.queue) && (work in owned || work == basis.work)
      modifies this`byId, this`owned, owned
      ensures Valid() && fresh(owned - old(owned)) && old(owned) <= owned
      ensures byId.value == Put(old(byId.value), id, held)
      ensures entries.value == old(entries.value) && RecordsNow() == old(RecordsNow())
    {
      if byId !in owned {
        byId := new Ref(byId.value);
        owned := owned + {byId};
      }
      byId.value := Put(byId.value, id, held);
    }

    method WritableWork()
      requires Valid()
      modifies this`work, this`owned
      ensures Valid() && fresh(owned - old(owned)) && old(owned) <= owned
      ensures work in owned && work.value == old(work.value)
    {
      if work !in owned {
        work := new Ref(work.value);
        owned := owned + {work};
      }
    }

    method SetWork(item: WorkItem)
      requires Valid()
      modifies this`work, this`owned, owned
      ensures Valid() && fresh(owned - old(owned)) && old(owned) <= owned && KeepsBranch()
      ensures work in owned && RecordsNow() == old(RecordsNow()).(work := Put(old(work.value), item.workId, item))
    {
      WritableWork();
      work.value := Put(work.value, item.workId, item);
    }

    method SetLabel(target: string, text: Option<string>, timestamp: string)
      requires Valid()
      modifies this`labels, this`owned, owned
      ensures Valid() && fresh(owned - old(owned)) && old(owned) <= owned && KeepsBranch()
      ensures RecordsNow() ==
          old(RecordsNow()).(labels := ClientFold.SetLabel(old(labels.value), target, text, timestamp))
      ensures if (text.Some? && text.value != "") || Has(old(labels.value), target) then labels in owned
              else labels == old(labels) && owned == old(owned)
    {
      var present := text.Some? && text.value != "";
      if !present && !Has(labels.value, target) {
        RemoveAbsent(labels.value, target);
        return;
      }
      if labels !in owned {
        labels := new Ref(labels.value);
        owned := owned + {labels};
      }
      labels.value := if present then Put(labels.value, target, LabelValue(text.value, timestamp))
          else Remove(labels.value, target);
    }

    // ----- The queue

    method SetQueue(inputs: seq<QueuedInput>)
      requires Valid()
      modifies this`queue, this`owned
      ensures Valid() && fresh(owned - old(owned)) && old(owned) <= owned && KeepsBranch()
      ensures RecordsNow() == old(RecordsNow()).(queue := inputs) && fresh(queue) && queue in owned
    {
      queue := new Ref(inputs);
      owned := owned + {queue};
    }

    method UpsertInput(input: QueuedInput)
      requires Valid()
      modifies this`queue, this`owned
      ensures Valid() && fresh(owned - old(owned)) && old(owned) <= owned && KeepsBranch()
      ensures RecordsNow() == old(RecordsNow()).(queue := ClientFold.UpsertInput(old(queue.value), input))
      ensures fresh(queue) && queue in owned
    {
      var spliced := SpliceInput(Without(queue.value, input.clientMessageId), input);
      SetQueue(spliced);
    }

    method RemoveInput(id: string)
      requires Valid()
      modifies this`queue, this`owned
      ensures Valid() && fresh(owned - old(owned)) && old(owned) <= owned && KeepsBranch()
      ensures RecordsNow() == old(RecordsNow()).(queue := Without(old(queue.value), id))
      ensures if FindInput(old(queue.value), id).None? then queue == old(queue) && owned == old(owned)
              else fresh(queue) && queue in owned
    {
      if FindInput(queue.value, id).None? {
        WithoutAbsent(queue.value, id);
      } else {
        SetQueue(Without(queue.value, id));
      }
    }

    method Receive(p: ReceiptPayload, ordinal: nat)
      requires Valid()
      modifies this`queue, this`owned
      ensures Valid() && fresh(owned - old(owned)) && old(owned) <= owned && KeepsBranch()
      ensures RecordsNow() == old(RecordsNow()).(queue := ClientFold.Receive(old(queue.value), p, ordinal))
    {
      UpsertInput(QueuedInput(p.clientMessageId, Accepted, ordinal, Some(p.command), None, p.origin, p.message,
          p.images));
    }

    method Enqueue(p: QueuedPayload, ordinal: nat)
      requires Valid()
      modifies this`queue, this`owned
      ensures Valid() && fresh(owned - old(owned)) && old(owned) <= owned && KeepsBranch()
      ensures RecordsNow() == old(RecordsNow()).(queue := ClientFold.Enqueue(old(queue.value), p, ordinal))
    {
      var existing := FindInput(queue.value, p.clientMessageId);
      UpsertInput(QueuedInput(p.clientMessageId, Accepted, ordinal, if existing.Some? then existing.value.command
          else None,
                              Some(p.delivery), if existing.Some? then existing.value.origin
                                  else None, p.message, p.images));
    }

    method Transition(id: string, state: InputState)
      requires Valid()
      modifies this`queue, this`owned
      ensures Valid() && fresh(owned - old(owned)) && old(owned) <= owned && KeepsBranch()
      ensures RecordsNow() == old(RecordsNow()).(queue := ClientFold.Transition(old(queue.value), id, state))
    {
      var existing := FindInput(queue.value, id);
      if existing.None? { return; }
      if state.Ended? {
        RemoveInput(id);
      } else if existing.value.state != state {
        UpsertInput(existing.value.(state := state));
      }
    }

    // ----- Work

    method StartWork(p: WorkStart, ordinal: nat, timestamp: string)
      requires Valid()
      modifies this`work, this`owned, owned
      ensures Valid() && fresh(owned - old(owned)) && old(owned) <= owned && KeepsBranch()
      ensures RecordsNow() == old(RecordsNow()).(work := ClientFold.StartWork(old(work.value), p, ordinal, timestamp))
    {
      if Has(work.value, p.workId) { return; }
      SetWork(WorkItem(p.workId, p.facts, p.child, p.state, None, None, None, None, None, ordinal, ordinal, None,
          timestamp, None));
    }

    method CheckpointWork(p: WorkUpdate, ordinal: nat)
      requires Valid()
      modifies this`work, this`owned, owned
      ensures Valid() && fresh(owned - old(owned)) && old(owned) <= owned && KeepsBranch()
      ensures RecordsNow() == old(RecordsNow()).(work := ClientFold.CheckpointWork(old(work.value), p, ordinal))
    {
      var item := Get(work.value, p.workId);
      if item.None? || item.value.outcome.Some? { return; }
      SetWork(item.value.(
        state := if p.state.Some? then p.state.value else item.value.state,
        progress := OrElse(p.progress, item.value.progress),
        detail := OrElse(p.detail, item.value.detail),
        child := OrElse(p.child, item.value.child),
        updatedOrdinal := ordinal));
    }

    /** Finish an open item, then delete the oldest finished ones beyond the newest. */
    method FinishWork(p: WorkEnd, ordinal: nat, timestamp: string)
      requires Valid()
      modifies this`work, this`owned, owned
      ensures Valid() && fresh(owned - old(owned)) && old(owned) <= owned && KeepsBranch()
      ensures RecordsNow() == old(RecordsNow()).(work := ClientFold.FinishWork(old(work.value), p, ordinal, timestamp))
    {
      var item := Get(work.value, p.workId);
      if item.None? || item.value.outcome.Some? { return; }
      SetWork(Finished(item.value, p, ordinal, timestamp));
      EvictFinished();
    }

    method EvictFinished()
      requires Valid() && work in owned
      modifies work
      ensures RecordsNow() == old(RecordsNow()).(work := RemoveAll(old(work.value), Overdue(old(work.value))))
      ensures KeepsBranch()
    {
      var overdue := Overdue(work.value);
      ghost var done := work.value;
      for n := 0 to |overdue|
        invariant work.value == RemoveAll(done, overdue[..n])
        invariant RecordsNow() == old(RecordsNow()).(work := work.value) && KeepsBranch()
      {
        RemoveAllSnoc(done, overdue, n);
        work.value := Remove(work.value, overdue[n].workId);
      }
      assert overdue[..|overdue|] == overdue;
    }

    // ----- Records

    method SetName(name: Option<string>)
      requires Valid()
      modifies this`name
      ensures Valid() && KeepsBranch()
          && RecordsNow() == old(RecordsNow()).(name := if name == Some("") then None else name)
    {
      this.name := if name == Some("") then None else name;
    }

    method SetLineage(lineage: string)
      requires Valid()
      modifies this`forkedFrom
      ensures Valid() && KeepsBranch() && RecordsNow() == old(RecordsNow()).(forkedFrom := Some(lineage))
    {
      forkedFrom := Some(lineage);
    }

    method ApplyRecords(e: Entry)
      requires Valid()
      modifies this`name, this`labels, this`queue, this`forkedFrom, this`work, this`owned, owned
      ensures Valid() && fresh(owned - old(owned)) && old(owned) <= owned && KeepsBranch()
      ensures RecordsNow() == ClientFold.ApplyRecords(old(RecordsNow()), e)
    {
      match e.body
      case WorkStarted(_) => ApplyWork(e);
      case WorkCheckpoint(_) => ApplyWork(e);
      case WorkFinished(_) => ApplyWork(e);
      case LabelEntry(Some(p)) => SetLabel(p.0, p.1, e.timestamp);
      case SessionInfo(Some(name)) => SetName(name);
      case ForkedFrom(Some(lineage)) => SetLineage(lineage);
      case _ => ApplyInput(e);
    }

    method ApplyInput(e: Entry)
      requires Valid() && !(e.body.WorkStarted? || e.body.WorkCheckpoint? || e.body.WorkFinished?)
      requires !(e.body.LabelEntry? && e.body.bookmark.Some?) && !(e.body.SessionInfo? && e.body.name.Some?)
      requires !(e.body.ForkedFrom? && e.body.lineage.Some?)
      modifies this`queue, this`owned
      ensures Valid() && fresh(owned - old(owned)) && old(owned) <= owned && KeepsBranch()
      ensures RecordsNow() == ClientFold.ApplyRecords(old(RecordsNow()), e)
    {
      match e.body
      case InputReceipt(Some(p)) => Receive(p, e.ordinal);
      case InputQueued(Some(p)) => Enqueue(p, e.ordinal);
      case InputStateChange(Some(p)) => Transition(p.0, p.1);
      case MessageEntry(payload, view) =>
        var id := OrElse(if payload.Some? then payload.value.clientMessageId else None, view);
        if id.Some? { RemoveInput(id.value); }
      case _ =>
    }

    method ApplyWork(e: Entry)
      requires Valid() && (e.body.WorkStarted? || e.body.WorkCheckpoint? || e.body.WorkFinished?)
      modifies this`work, this`owned, owned
      ensures Valid() && fresh(owned - old(owned)) && old(owned) <= owned && KeepsBranch()
      ensures RecordsNow() == ClientFold.ApplyRecords(old(RecordsNow()), e)
    {
      match e.body
      case WorkStarted(Some(p)) => StartWork(p, e.ordinal, e.timestamp);
      case WorkCheckpoint(Some(p)) => CheckpointWork(p, e.ordinal);
      case WorkFinished(Some(p)) => FinishWork(p, e.ordinal, e.timestamp);
      case _ =>
    }

    // ----- The branch

    /** Branch values from scratch, along the held path to the leaf. */
    method Rederive()
      modifies this`values
      ensures values == Derive(basis.base, HeldBranch(byId.value, leafId))
    {
      values := basis.base;
      var path := WalkHeldBranch(byId.value, leafId);
      for n := 0 to |path|
        invariant values == Derive(basis.base, path[..n])
      {
        assert path[..n + 1] == path[..n] + [path[n]];
        DeriveSnoc(basis.base, path[..n], path[n]);
        values := ApplyBranchValue(values, path[n]);
      }
      assert path[..|path|] == path;
    }

    method MoveLeaf(target: Option<string>)
      modifies this`leafId, this`values
      ensures Now() == ClientFold.MoveLeaf(old(Now()), target)
    {
      if target == leafId { return; }
      leafId := target;
      Rederive();
    }

    method AppendToBranch(e: Entry)
      modifies this`leafId, this`values
      ensures Now() == ClientFold.AppendToBranch(old(Now()), e)
    {
      var onLeaf := e.parentId == leafId;
      leafId := Some(e.id);
      if onLeaf { values := ApplyBranchValue(values, e); } else { Rederive(); }
    }

    // ----- Calls

    method Hold(e: Entry)
      requires Valid()
      modifies this, owned
      ensures Valid() && fresh(owned - old(owned)) && old(owned) <= owned
      ensures Now() == Held(old(Now()), e)
    {
      Append(e);
      WriteById(e.id, e);
      ApplyRecords(e);
    }

    method Branch(e: Entry)
      modifies this`leafId, this`values
      ensures Now() == Branched(old(Now()), e)
    {
      if e.body.LeafMove? {
        if e.body.target.Some? { MoveLeaf(e.body.target.value); }
      } else if IsPublic(e.body) {
        AppendToBranch(e);
      }
    }

    /** One entry: the pure step on what the builder stands for, written only to what it owns. */
    method Apply(e: Entry) returns (r: Result<nat>)
      requires Valid()
      modifies this, owned
      ensures Valid() && fresh(owned - old(owned)) && old(owned) <= owned
      ensures match ClientFold.Apply(old(Now()), e)
              case Ok(next) => r.Ok? && Now() == next
              case Err(error) => r == Err(error) && Now() == old(Now())
    {
      if e.ordinal <= ordinal { return Err("expected a later ordinal"); }
      if Has(byId.value, e.id) { return Err("duplicate entry id"); }
      Hold(e);
      Branch(e);
      ordinal := e.ordinal;
      r := Ok(e.ordinal);
    }

    method Advance(ordinal: nat) returns (r: Result<nat>)
      requires Valid()
      modifies this`ordinal
      ensures Valid()
      ensures match ClientFold.Advance(old(Now()), ordinal)
              case Ok(next) => r.Ok? && Now() == next
              case Err(error) => r == Err(error) && Now() == old(Now())
    {
      if ordinal < this.ordinal { return Err("position is already later"); }
      this.ordinal := ordinal;
      r := Ok(ordinal);
    }

    /** Every field is the basis's own, collections by identity. */
    ghost predicate Untouched()
      reads this
    {
      && ordinal == basis.ordinal && entries == basis.entries && leafId == basis.leafId && values == basis.values
      && name == basis.name && labels == basis.labels && queue == basis.queue && forkedFrom == basis.forkedFrom
          && work == basis.work
    }

    /** The basis itself when nothing changed, otherwise a state over the builder's collections. */
    method Finish() returns (s: StateRef)
      requires Valid()
      ensures View(s) == Now()
      ensures CellsOf(s) <= CellsOf(basis) + owned
      ensures Untouched() ==> s == basis
    {
      var same := ordinal == basis.ordinal && entries == basis.entries && leafId == basis.leafId
          && values == basis.values
        && name == basis.name && labels == basis.labels && queue == basis.queue && forkedFrom == basis.forkedFrom
            && work == basis.work;
      if same { return basis; }
      s := StateRef(ordinal, entries, byId, basis.earlier, leafId, values, name, labels, queue, forkedFrom, work,
          basis.base);
    }
  }

  // ----- Folding

  /**
   * `clientFold`: the pure fold of the batch. It changes no object that existed before, so the state it
   * started from, and every other state, keeps its value; the result holds only cells of that state and
   * new ones.
   */
  method ClientFoldBatch(batch: seq<Entry>, initial: StateRef) returns (r: Result<StateRef>)
    ensures r.Ok? <==> Fold(View(initial), batch).Ok?
    ensures r.Ok? ==> View(r.value) == Fold(View(initial), batch).value
    ensures r.Ok? ==> fresh(CellsOf(r.value) - CellsOf(initial))
    ensures batch == [] ==> r == Ok(initial)
  {
    var builder := new ClientStateBuilder(initial);
    for n := 0 to |batch|
      invariant fresh(builder) && fresh(builder.owned) && builder.Valid() && builder.basis == initial
      invariant Fold(View(initial), batch) == Fold(builder.Now(), batch[n..])
      invariant n == 0 ==> builder.Now() == View(initial) && builder.owned == {}
    {
      assert batch[n..][0] == batch[n] && batch[n..][1..] == batch[n + 1..];
      var step := builder.Apply(batch[n]);
      if step.Err? { return Err(step.error); }
    }
    assert batch[|batch|..] == [];
    var s := builder.Finish();
    r := Ok(s);
  }

  /** `clientAdvance` */
  method ClientAdvance(initial: StateRef, ordinal: nat) returns (r: Result<StateRef>)
    ensures r.Ok? <==> Advance(View(initial), ordinal).Ok?
    ensures r.Ok? ==> View(r.value) == Advance(View(initial), ordinal).value
    ensures r.Ok? ==> CellsOf(r.value) == CellsOf(initial)
  {
    var builder := new ClientStateBuilder(initial);
    var step := builder.Advance(ordinal);
    if step.Err? { return Err(step.error); }
    var s := builder.Finish();
    r := Ok(s);
  }

  /** Folding a second batch onto the first one's result is folding both, and the states in between stay. */
  method FoldInBatches(first: seq<Entry>, second: seq<Entry>, initial: StateRef)
      returns (between: Result<StateRef>, r: Result<StateRef>)
    ensures between.Ok? ==> Fold(View(initial), first).Ok? && View(between.value) == Fold(View(initial), first).value
    ensures r.Ok? <==> Fold(View(initial), first + second).Ok?
    ensures r.Ok? ==> between.Ok? && View(r.value) == Fold(View(initial), first + second).value
  {
    FoldConcat(View(initial), first, second);
    between := ClientFoldBatch(first, initial);
    if between.Err? { return between, between; }
    r := ClientFoldBatch(second, between.value);
  }
}
