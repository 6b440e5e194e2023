/** Runs that start an evicted work id again: more than 64 items start and finish, then the first starts once more. */
module ClientRestart {
  import opened Prelude
  import opened OrderedMaps
  import opened ClientFold
  import opened ClientSnapshot
  import opened ClientWork

  function Name(n: nat): (r: string)
    ensures |r| == n
  {
    seq(n, i => 'w')
  }

  function StartEntry(i: nat, ordinal: nat): Entry {
    Entry(Name(ordinal), None, ordinal, "", WorkStarted(Some(WorkStart(Name(i), "", None, ""))))
  }

  function FinishEntry(i: nat, ordinal: nat): Entry {
    Entry(Name(ordinal), None, ordinal, "",
        WorkFinished(Some(WorkEnd(Name(i), "done", WorkResult(None, None, None), None))))
  }

  /** `n` items that start and finish one after the other. */
  function Rounds(n: nat): seq<ClientStep> {
    if n == 0 then []
    else Rounds(n - 1) + [FoldEntry(StartEntry(n - 1, 2 * n - 1))] + [FoldEntry(FinishEntry(n - 1, 2 * n))]
  }

  function OpenItem(i: nat, ordinal: nat): WorkItem {
    WorkItem(Name(i), "", None, "", None, None, None, None, None, ordinal, ordinal, None, "", None)
  }

  function DoneItem(i: nat): WorkItem {
    WorkItem(Name(i), "", None, "", Some("done"), None, None, None, None, 2 * i + 1, 2 * i + 2, Some(2 * i + 2), "",
        Some(""))
  }

  /** The unbounded table after the rounds. */
  function DoneTable(n: nat): (r: OMap<string, WorkItem>)
    ensures |r| == n
    ensures forall i :: 0 <= i < n ==> r[i] == (Name(i), DoneItem(i))
  {
    if n == 0 then [] else DoneTable(n - 1) + [(Name(n - 1), DoneItem(n - 1))]
  }

  lemma {:induction false} Unknown(n: nat, k: nat)
    requires n <= k
    ensures !Has(DoneTable(n), Name(k))
  {
    HasIsMember(DoneTable(n), Name(k));
  }

  lemma {:induction false} PutLast(m: OMap<string, WorkItem>, k: string, v: WorkItem, w: WorkItem)
    requires !Has(m, k)
    ensures Get(m + [(k, v)], k) == Some(v) && Put(m + [(k, v)], k, w) == m + [(k, w)]
  {
    PutNew(m, k, v);
    GetPut(m, k, v, k);
    PutPut(m, k, v, w);
    PutNew(m, k, w);
  }

  /** The unbounded table in the middle of a round. */
  function OpenTable(n: nat): OMap<string, WorkItem> {
    DoneTable(n) + [(Name(n), OpenItem(n, 2 * n + 1))]
  }

  lemma {:induction false} StartTable(n: nat)
    ensures KeepAll(DoneTable(n), StartEntry(n, 2 * n + 1)) == OpenTable(n)
  {
    Unknown(n, n);
    PutNew(DoneTable(n), Name(n), OpenItem(n, 2 * n + 1));
  }

  lemma {:induction false} FinishTable(n: nat)
    ensures KeepAll(OpenTable(n), FinishEntry(n, 2 * n + 2)) == DoneTable(n + 1)
  {
    Unknown(n, n);
    PutLast(DoneTable(n), Name(n), OpenItem(n, 2 * n + 1), DoneItem(n));
  }

  /** A client that folded entries with names up to `n`, with the kept table of `work`. */
  ghost predicate Folded(s: ClientState, n: nat, work: OMap<string, WorkItem>) {
    && Kept(s) && s.ordinal == n && TableOk(work, n) && s.records.work == Bounded(work)
    && forall i :: 0 <= i < |s.entries| ==> |s.entries[i].id| <= n
  }

  lemma {:induction false} FoldNext(s: ClientState, n: nat, work: OMap<string, WorkItem>, e: Entry, next: OMap<string,
      WorkItem>)
    returns (t: ClientState)
    requires Folded(s, n, work) && e.id == Name(n + 1) && e.ordinal == n + 1
    requires !Restarts(work, FoldEntry(e)) && next == KeepAll(work, e)
    ensures Apply(s, e) == Ok(t) && Folded(t, n + 1, next)
  {
    ByIdHas(s.entries, e.id);
    t := Apply(s, e).value;
    ApplyKeeps(s, e);
    ApplyFields(s, e);
    StepBothIff(s, work, FoldEntry(e));
  }

  lemma {:induction false} RunSnoc(s: ClientState, steps: seq<ClientStep>, step: ClientStep)
    requires Run(s, steps).Ok? && Step(Run(s, steps).value, step).Ok?
    ensures Run(s, steps + [step]) == Step(Run(s, steps).value, step)
  {
    RunConcat(s, steps, [step]);
    assert [step][1..] == [];
    var next := Step(Run(s, steps).value, step).value;
    assert Run(next, []) == Ok(next);
  }

  lemma {:induction false} KeepAllSnoc(work: OMap<string, WorkItem>, steps: seq<ClientStep>, e: Entry)
    ensures KeepAllRun(work, steps + [FoldEntry(e)]) == KeepAll(KeepAllRun(work, steps), e)
    decreases steps
  {
    var all := steps + [FoldEntry(e)];
    if steps == [] {
      assert all[0] == FoldEntry(e) && all[1..] == [];
    } else {
      assert all[1..] == steps[1..] + [FoldEntry(e)];
      KeepAllSnoc(if steps[0].FoldEntry? then KeepAll(work, steps[0].entry) else work, steps[1..], e);
    }
  }

  lemma {:induction false} StartsFresh(n: nat)
    ensures !Restarts(DoneTable(n), FoldEntry(StartEntry(n, 2 * n + 1)))
  {
    Unknown(n, n);
  }

  lemma {:induction false} StartFolds(s: ClientState, n: nat) returns (t: ClientState)
    requires Folded(s, 2 * n, DoneTable(n))
    ensures Apply(s, StartEntry(n, 2 * n + 1)) == Ok(t) && Folded(t, 2 * n + 1, OpenTable(n))
  {
    StartTable(n);
    StartsFresh(n);
    t := FoldNext(s, 2 * n, DoneTable(n), StartEntry(n, 2 * n + 1), OpenTable(n));
  }

  lemma {:induction false} FinishFolds(s: ClientState, n: nat) returns (t: ClientState)
    requires Folded(s, 2 * n + 1, OpenTable(n))
    ensures Apply(s, FinishEntry(n, 2 * n + 2)) == Ok(t) && Folded(t, 2 * n + 2, DoneTable(n + 1))
  {
    FinishTable(n);
    t := FoldNext(s, 2 * n + 1, OpenTable(n), FinishEntry(n, 2 * n + 2), DoneTable(n + 1));
  }

  lemma {:induction false} FoldedNothing()
    ensures Folded(EMPTY, 0, [])
  {
    assert Bounded([]) == [];
  }

  lemma {:induction false} RoundsNext(n: nat)
    ensures Rounds(n + 1) == Rounds(n) + [FoldEntry(StartEntry(n, 2 * n + 1))] + [FoldEntry(FinishEntry(n, 2 * n + 2))]
  {
  }

  /** Every entry of the rounds is accepted. */
  lemma {:induction false} AfterRounds(n: nat) returns (s: ClientState)
    ensures Run(EMPTY, Rounds(n)) == Ok(s) && Folded(s, 2 * n, DoneTable(n))
  {
    if n == 0 {
      FoldedNothing();
      s := EMPTY;
    } else {
      var m := n - 1;
      var before := AfterRounds(m);
      var one := StartFolds(before, m);
      var two := FinishFolds(one, m);
      RoundsNext(m);
      RunSnoc(EMPTY, Rounds(m), FoldEntry(StartEntry(m, 2 * m + 1)));
      RunSnoc(EMPTY, Rounds(m) + [FoldEntry(StartEntry(m, 2 * m + 1))], FoldEntry(FinishEntry(m, 2 * m + 2)));
      s := two;
    }
  }

  lemma {:induction false} RoundsTable(n: nat)
    ensures KeepAllRun([], Rounds(n)) == DoneTable(n)
  {
    if n > 0 {
      var m := n - 1;
      RoundsTable(m);
      StartTable(m);
      FinishTable(m);
      KeepAllSnoc([], Rounds(m), StartEntry(m, 2 * m + 1));
      KeepAllSnoc([], Rounds(m) + [FoldEntry(StartEntry(m, 2 * m + 1))], FinishEntry(m, 2 * m + 2));
    }
  }

  lemma {:induction false} NewerThanFirst(n: nat)
    requires n > 0
    ensures CountNewer(DoneTable(n), 2) == n - 1
  {
    if n == 1 {
      assert DoneTable(1) == [] + [(Name(0), DoneItem(0))] by { assert DoneTable(0) == []; }
      CountAppended([], (Name(0), DoneItem(0)), 2);
      assert CountNewer([], 2) == 0;
    } else {
      NewerThanFirst(n - 1);
      CountAppended(DoneTable(n - 1), (Name(n - 1), DoneItem(n - 1)), 2);
    }
  }

  /** The item that finished first is evicted when 64 others finished after it. */
  lemma {:induction false} FirstEvicted(n: nat)
    requires n > WORK_FINISHED_MAX
    ensures Evicted(DoneTable(n), Name(0))
  {
    var work := DoneTable(n);
    DoneDistinct(n);
    GetAt(work, 0);
    NewerThanFirst(n);
    FilterGet(work, Name(0), CurrentIn(work));
  }

  lemma {:induction false} DoneDistinct(n: nat)
    ensures Distinct(DoneTable(n))
  {
    var work := DoneTable(n);
    forall i, j | 0 <= i < j < |work| ensures work[i].0 != work[j].0 {
      assert |work[i].0| == i && |work[j].0| == j;
    }
  }

  /**
   * More than 64 items start and finish, and the first starts again: every entry is accepted, and the
   * kept table ends with an open item that the restricted unbounded table does not have.
   */
  lemma {:induction false} RestartDiffers(n: nat)
    requires n > WORK_FINISHED_MAX
    ensures var steps := Rounds(n) + [FoldEntry(StartEntry(0, 2 * n + 1))];
            && Run(EMPTY, steps).Ok?
            && Has(Run(EMPTY, steps).value.records.work, Name(0))
            && !Has(Bounded(KeepAllRun([], steps)), Name(0))
            && Run(EMPTY, steps).value.records.work != Bounded(KeepAllRun([], steps))
  {
    var e := StartEntry(0, 2 * n + 1);
    var s := AfterRounds(n);
    RoundsTable(n);
    FirstEvicted(n);
    ByIdHas(s.entries, e.id);
    ApplyFields(s, e);
    RunSnoc(EMPTY, Rounds(n), FoldEntry(e));
    KeepAllSnoc([], Rounds(n), e);
    GetPut(s.records.work, Name(0), OpenItem(0, 2 * n + 1), Name(0));
  }
}
