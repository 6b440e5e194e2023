/** What every call on the inbox or on any lease handle keeps. */
module InboxInvariant {
  import opened Prelude
  import opened InboxSpec

  type Registry = map<string, Delivery>
  type Places = map<string, Place>

  ghost predicate EntryAt(leases: seq<Lease>, l: int, i: int) {
    0 <= l < |leases| && 0 <= i < |leases[l].entries|
  }

  ghost predicate LiveAt(leases: seq<Lease>, l: int, i: int) {
    EntryAt(leases, l, i) && Live(leases[l].entries[i].status)
  }

  /** A delivery is the one issued under its id. */
  ghost predicate Genuine(issued: Registry, d: Delivery) {
    d.id in issued && issued[d.id] == d
  }

  /** Ids and sequence numbers are never reused. */
  ghost predicate RegistryOk(issued: Registry, nextSequence: nat, generation: nat) {
    && (forall id :: id in issued ==>
          issued[id].id == id && issued[id].sequence < nextSequence && issued[id].epoch <= generation)
    && (forall a, b :: a in issued && b in issued && a != b ==> issued[a].sequence != issued[b].sequence)
  }

  /** Pending is strictly ordered by sequence and of the current epoch only. */
  ghost predicate QueueOk(pending: seq<Delivery>, issued: Registry, generation: nat) {
    && Ascending(pending, Sequence)
    && (forall d :: d in pending ==> Genuine(issued, d) && d.epoch == generation)
  }

  ghost predicate AscendingEntries(entries: seq<Entry>) {
    forall i, j :: 0 <= i < j < |entries| ==> entries[i].delivery.sequence < entries[j].delivery.sequence
  }

  ghost predicate LeasesOk(leases: seq<Lease>, issued: Registry, generation: nat) {
    && (forall l :: 0 <= l < |leases| ==> leases[l].generation <= generation && AscendingEntries(leases[l].entries))
    && (forall l, i :: EntryAt(leases, l, i) ==>
          Genuine(issued, leases[l].entries[i].delivery) && leases[l].entries[i].delivery.epoch == leases[l].generation)
  }

  /** Only the active lease is active; a finished lease still answers only for commits that a reset overtook. */
  ghost predicate ActiveOk(leases: seq<Lease>, activeLease: Option<nat>, generation: nat) {
    && (activeLease.Some? ==>
          activeLease.value < |leases| && leases[activeLease.value].active
          && leases[activeLease.value].generation == generation)
    && (forall l :: 0 <= l < |leases| && leases[l].active ==> activeLease == Some(l))
    && (forall l, i :: LiveAt(leases, l, i) && !leases[l].active ==>
          leases[l].entries[i].status.Committing? && leases[l].generation < generation)
  }

  /** The deliveries recorded as waiting are the pending ones. */
  ghost predicate WaitingOk(pending: seq<Delivery>, place: Places, issued: Registry) {
    && place.Keys == issued.Keys
    && (forall d :: d in pending ==> d.id in place && place[d.id] == Waiting)
    && (forall id :: id in place && place[id].Waiting? ==> issued[id] in pending)
  }

  /** The deliveries recorded as held are the live entries, each of one lease only. */
  ghost predicate HeldOk(leases: seq<Lease>, place: Places) {
    && (forall l, i :: LiveAt(leases, l, i) ==>
          leases[l].entries[i].delivery.id in place && place[leases[l].entries[i].delivery.id] == Held(l, i))
    && (forall id :: id in place && place[id].Held? ==>
          LiveAt(leases, place[id].lease, place[id].index)
          && leases[place[id].lease].entries[place[id].index].delivery.id == id)
  }

  ghost predicate CommitsOk(commits: seq<string>, place: Places) {
    && (forall i, j :: 0 <= i < j < |commits| ==> commits[i] != commits[j])
    && (forall id :: id in commits ==> id in place && place[id] == Settled(WasCommitted))
    && (forall id :: id in place && place[id] == Settled(WasCommitted) ==> id in commits)
  }

  ghost predicate Inv(w: World) {
    && RegistryOk(w.issued, w.nextSequence, w.resetGeneration)
    && QueueOk(w.pending, w.issued, w.resetGeneration)
    && LeasesOk(w.leases, w.issued, w.resetGeneration)
    && ActiveOk(w.leases, w.activeLease, w.resetGeneration)
    && WaitingOk(w.pending, w.place, w.issued)
    && HeldOk(w.leases, w.place)
    && CommitsOk(w.commits, w.place)
  }

  /** Within one lease a delivery appears once, so `find` finds the entry. */
  lemma {:induction false} FindEntry(w: World, l: nat, i: nat)
    requires Inv(w) && EntryAt(w.leases, l, i)
    ensures Find(w.leases[l].entries, w.leases[l].entries[i].delivery.id) == Some(i)
  {
    var entries := w.leases[l].entries;
    var j := Find(entries, entries[i].delivery.id).value;
    assert EntryAt(w.leases, l, j);
  }

  // ----- Rewriting the entries of one lease

  function Rewritten(leases: seq<Lease>, l: nat, after: seq<Entry>): seq<Lease>
    requires l < |leases|
  {
    leases[l := leases[l].(entries := after)]
  }

  /** The same deliveries, and nothing comes alive. */
  ghost predicate Weaker(before: seq<Entry>, after: seq<Entry>) {
    && |after| == |before|
    && (forall i :: 0 <= i < |after| ==> after[i].delivery == before[i].delivery)
    && (forall i :: 0 <= i < |after| && Live(after[i].status) ==> Live(before[i].status))
  }

  lemma {:induction false} RewriteAt(leases: seq<Lease>, l: nat, after: seq<Entry>)
    requires l < |leases| && Weaker(leases[l].entries, after)
    ensures forall m, j :: EntryAt(Rewritten(leases, l, after), m, j) ==>
                             EntryAt(leases, m, j)
                                 && Rewritten(leases, l, after)[m].entries[j].delivery == leases[m].entries[j].delivery
    ensures forall m, j :: LiveAt(Rewritten(leases, l, after), m, j) ==> LiveAt(leases, m, j)
    ensures forall m, j :: LiveAt(leases, m, j) ==> EntryAt(Rewritten(leases, l, after), m, j)
  {
  }

  lemma {:induction false} RewriteLeasesOk(leases: seq<Lease>, l: nat, after: seq<Entry>, issued: Registry,
      generation: nat)
    requires l < |leases| && Weaker(leases[l].entries, after) && LeasesOk(leases, issued, generation)
    ensures LeasesOk(Rewritten(leases, l, after), issued, generation)
  {
    RewriteAt(leases, l, after);
  }

  lemma {:induction false} RewriteActiveOk(leases: seq<Lease>, l: nat, after: seq<Entry>, activeLease: Option<nat>,
      generation: nat)
    requires l < |leases| && Weaker(leases[l].entries, after) && ActiveOk(leases, activeLease, generation)
    requires !leases[l].active ==> forall i :: 0 <= i < |after| && Live(after[i].status) ==>
        after[i] == leases[l].entries[i]
    ensures ActiveOk(Rewritten(leases, l, after), activeLease, generation)
  {
    RewriteAt(leases, l, after);
    var leases' := Rewritten(leases, l, after);
    forall m, j | LiveAt(leases', m, j) && !leases'[m].active
      ensures leases'[m].entries[j].status.Committing? && leases'[m].generation < generation
    {
      assert LiveAt(leases, m, j);
    }
  }

  /** Places agree with the rewritten entries: what died is held no more, and nothing else changed hands. */
  lemma {:induction false} RewriteHeldOk(leases: seq<Lease>, l: nat, after: seq<Entry>, place: Places, place': Places)
    requires l < |leases| && Weaker(leases[l].entries, after) && HeldOk(leases, place)
    requires forall id :: id in place && place[id].Held? ==>
               id in place' &&
               if place[id].lease == l
                   && !Live(after[place[id].index].status) then !place'[id].Held? else place'[id] == place[id]
    requires forall id :: id in place' && place'[id].Held? ==> id in place && place[id] == place'[id]
    ensures HeldOk(Rewritten(leases, l, after), place')
  {
    RewriteAt(leases, l, after);
    var leases' := Rewritten(leases, l, after);
    forall m, j | LiveAt(leases', m, j)
      ensures leases'[m].entries[j].delivery.id in place' && place'[leases'[m].entries[j].delivery.id] == Held(m, j)
    {
      assert LiveAt(leases, m, j);
      assert place[leases[m].entries[j].delivery.id] == Held(m, j);
    }
    forall id | id in place' && place'[id].Held?
      ensures LiveAt(leases', place'[id].lease, place'[id].index)
      ensures leases'[place'[id].lease].entries[place'[id].index].delivery.id == id
    {
      assert LiveAt(leases, place[id].lease, place[id].index);
    }
  }

  lemma {:induction false} ChangeWeaker(entries: seq<Entry>, i: nat, e: Entry)
    requires i < |entries| && e.delivery == entries[i].delivery && (Live(e.status) ==> Live(entries[i].status))
    ensures Weaker(entries, entries[i := e])
  {
  }

  /** A status change that keeps the entry live keeps the invariant. */
  lemma {:induction false} LiveStatusKeeps(w: World, l: nat, i: nat, e: Entry)
    requires Inv(w) && LiveAt(w.leases, l, i) && w.leases[l].active
    requires e.delivery == w.leases[l].entries[i].delivery && Live(e.status)
    ensures Inv(w.(leases := Rewritten(w.leases, l, w.leases[l].entries[i := e])))
  {
    var after := w.leases[l].entries[i := e];
    ChangeWeaker(w.leases[l].entries, i, e);
    RewriteLeasesOk(w.leases, l, after, w.issued, w.resetGeneration);
    RewriteActiveOk(w.leases, l, after, w.activeLease, w.resetGeneration);
    RewriteHeldOk(w.leases, l, after, w.place, w.place);
  }

  // ----- Settling one entry

  lemma {:induction false} FinishKeeps(w: World, l: nat)
    requires Inv(w) && l < |w.leases|
    ensures Inv(FinishIfExhausted(w, l))
    ensures FinishIfExhausted(w, l).pending == w.pending
  {
    var w' := FinishIfExhausted(w, l);
    SortAscending(w.pending, Sequence);
    if w' != w {
      FinishLeases(w.leases, l, w.issued, w.activeLease, w.resetGeneration, w.place);
    }
  }

  lemma {:induction false} FinishLeases(leases: seq<Lease>, l: nat, issued: Registry, activeLease: Option<nat>,
      generation: nat, place: Places)
    requires LeasesOk(leases, issued, generation) && ActiveOk(leases, activeLease, generation) && HeldOk(leases, place)
    requires l < |leases| && leases[l].active && Exhausted(leases[l].entries)
    ensures var leases' := leases[l := leases[l].(active := false)];
            LeasesOk(leases', issued, generation) && ActiveOk(leases', None, generation) && HeldOk(leases', place)
  {
    var leases' := leases[l := leases[l].(active := false)];
    forall m, j | EntryAt(leases', m, j) ensures EntryAt(leases, m, j)
        && (LiveAt(leases', m, j) <==> LiveAt(leases, m, j)) {}
    forall m, j | LiveAt(leases, m, j) ensures LiveAt(leases', m, j) { assert EntryAt(leases', m, j); }
    forall j | 0 <= j < |leases[l].entries| ensures !LiveAt(leases', l, j) {
      assert leases[l].entries[j] in leases[l].entries;
    }
  }

  /** An entry that is live no more: its delivery is put somewhere that is not a lease. */
  lemma {:induction false} DropEntry(w: World, l: nat, i: nat, s: Status, p: Place)
    requires Inv(w) && LiveAt(w.leases, l, i) && !Live(s) && !p.Held?
    ensures var id := w.leases[l].entries[i].delivery.id;
            var leases' := WithStatus(w, l, i, s).leases;
            && id in w.place && w.place[id] == Held(l, i)
            && LeasesOk(leases', w.issued, w.resetGeneration)
            && ActiveOk(leases', w.activeLease, w.resetGeneration)
            && HeldOk(leases', w.place[id := p])
  {
    var e := w.leases[l].entries[i].(status := s);
    var after := w.leases[l].entries[i := e];
    var id := e.delivery.id;
    assert w.place[id] == Held(l, i);
    ChangeWeaker(w.leases[l].entries, i, e);
    assert WithStatus(w, l, i, s).leases == Rewritten(w.leases, l, after);
    RewriteLeasesOk(w.leases, l, after, w.issued, w.resetGeneration);
    RewriteActiveOk(w.leases, l, after, w.activeLease, w.resetGeneration);
    RewriteHeldOk(w.leases, l, after, w.place, w.place[id := p]);
  }

  lemma {:induction false} SettleKeeps(w: World, l: nat, i: nat, s: Status, how: Settlement, commits: seq<string>)
    requires Inv(w) && LiveAt(w.leases, l, i) && !Live(s)
    requires commits == if how.WasCommitted? then w.commits + [w.leases[l].entries[i].delivery.id] else w.commits
    ensures Inv(Settle(WithStatus(w, l, i, s), w.leases[l].entries[i].delivery.id, how).(commits := commits))
  {
    var id := w.leases[l].entries[i].delivery.id;
    DropEntry(w, l, i, s, Settled(how));
    assert id !in w.commits;
    assert WaitingOk(w.pending, w.place[id := Settled(how)], w.issued);
    assert CommitsOk(commits, w.place[id := Settled(how)]);
  }

  lemma {:induction false} RestoreKeeps(w: World, l: nat, i: nat)
    requires Inv(w) && LiveAt(w.leases, l, i) && w.leases[l].generation == w.resetGeneration
    ensures Inv(RestoreSettlement(WithStatus(w, l, i, Restored), w.leases[l].generation,
        w.leases[l].entries[i].delivery))
    ensures var d := w.leases[l].entries[i].delivery;
            RestoreSettlement(WithStatus(w, l, i, Restored), w.leases[l].generation, d).pending ==
                InsertBy(d, w.pending, Sequence)
  {
    var d := w.leases[l].entries[i].delivery;
    DropEntry(w, l, i, Restored, Waiting);
    assert EntryAt(w.leases, l, i) && Genuine(w.issued, d);
    RestoreQueue(w.pending, d, w.issued, w.resetGeneration, w.place);
    UncommittedStays(w.commits, w.place, d.id);
  }

  lemma {:induction false} UncommittedStays(commits: seq<string>, place: Places, id: string)
    requires CommitsOk(commits, place) && id in place && place[id].Held?
    ensures CommitsOk(commits, place[id := Waiting])
  {
    assert id !in commits;
  }

  lemma {:induction false} RestoreQueue(pending: seq<Delivery>, d: Delivery, issued: Registry, generation: nat,
      place: Places)
    requires QueueOk(pending, issued, generation) && Genuine(issued, d) && d.epoch == generation
    requires WaitingOk(pending, place, issued) && d.id in place && !place[d.id].Waiting?
    requires forall a, b :: a in issued && b in issued && a != b ==> issued[a].sequence != issued[b].sequence
    ensures SortBy([d] + pending, Sequence) == InsertBy(d, pending, Sequence)
    ensures QueueOk(InsertBy(d, pending, Sequence), issued, generation)
    ensures WaitingOk(InsertBy(d, pending, Sequence), place[d.id := Waiting], issued)
  {
    SortOnto(pending, d);
    forall x | x in pending ensures x.sequence != d.sequence {
      assert Genuine(issued, x);
    }
    InsertSorted(d, pending, Sequence);
    WaitingOneMore(pending, d, InsertBy(d, pending, Sequence), issued, place);
  }

  lemma {:induction false} SortOnto(pending: seq<Delivery>, d: Delivery)
    requires Ascending(pending, Sequence)
    ensures SortBy([d] + pending, Sequence) == InsertBy(d, pending, Sequence)
  {
    SortAscending(pending, Sequence);
    assert ([d] + pending)[1..] == pending;
  }

  lemma {:induction false} WaitingOneMore(pending: seq<Delivery>, d: Delivery, more: seq<Delivery>, issued: Registry,
      place: Places)
    requires WaitingOk(pending, place, issued) && Genuine(issued, d) && forall x :: x in more <==>
        x == d
        || x in pending
    ensures WaitingOk(more, place[d.id := Waiting], issued)
  {
  }

  lemma {:induction false} ConcludeKeeps(w: World, l: nat, i: nat, s: Status)
    requires Inv(w) && LiveAt(w.leases, l, i)
    requires s.Restored? || s.Committed? || s.TerminallyFailed? || s.Revoked?
    ensures Inv(Conclude(w, l, i, s))
    ensures s.Restored? && w.leases[l].generation == w.resetGeneration ==>
              Conclude(w, l, i, s).pending == InsertBy(w.leases[l].entries[i].delivery, w.pending, Sequence)
  {
    ConcludedKeeps(w, l, i, s);
    FinishKeeps(ConcludedWorld(w, l, i, s), l);
  }

  lemma {:induction false} ConcludedKeeps(w: World, l: nat, i: nat, s: Status)
    requires Inv(w) && LiveAt(w.leases, l, i)
    requires s.Restored? || s.Committed? || s.TerminallyFailed? || s.Revoked?
    ensures Inv(ConcludedWorld(w, l, i, s))
    ensures s.Restored? && w.leases[l].generation == w.resetGeneration ==>
              ConcludedWorld(w, l, i, s).pending == InsertBy(w.leases[l].entries[i].delivery, w.pending, Sequence)
  {
    if s.Restored? && w.leases[l].generation == w.resetGeneration {
      RestoreKeeps(w, l, i);
    } else {
      var how := match s
        case Restored => WasDropped
        case Committed => WasCommitted
        case Revoked => WasRevoked
        case _ => WasFailed;
      var d := w.leases[l].entries[i].delivery;
      SettleKeeps(w, l, i, s, how, if how.WasCommitted? then w.commits + [d.id] else w.commits);
    }
  }

  /** The world of `Conclude` before the lease may finish. */
  function ConcludedWorld(w: World, l: nat, i: nat, s: Status): (w2: World)
    requires l < |w.leases| && i < |w.leases[l].entries|
    requires s.Restored? || s.Committed? || s.TerminallyFailed? || s.Revoked?
    ensures |w2.leases| == |w.leases|
    ensures Conclude(w, l, i, s) == FinishIfExhausted(w2, l)
  {
    var d := w.leases[l].entries[i].delivery;
    var w1 := WithStatus(w, l, i, s);
    match s
    case Restored => RestoreSettlement(w1, w.leases[l].generation, d)
    case Committed => Settle(w1, d.id, WasCommitted).(commits := w.commits + [d.id])
    case Revoked => Settle(w1, d.id, WasRevoked)
    case _ => Settle(w1, d.id, WasFailed)
  }

  lemma {:induction false} EnqueueKeeps(w: World, id: string, kind: string, messages: seq<string>)
    requires Inv(w)
    ensures Inv(AfterEnqueue(w, id, kind, messages))
  {
    if id !in w.issued {
      var d := Delivery(w.nextSequence, id, kind, messages, w.nextSequence, w.resetGeneration);
      EnqueueQueue(w.pending, d, w.issued, w.nextSequence, w.resetGeneration, w.place);
      EnqueueLeases(w.leases, d, w.issued, w.resetGeneration, w.place);
      assert CommitsOk(w.commits, w.place[id := Waiting]);
    }
  }

  lemma {:induction false} EnqueueQueue(pending: seq<Delivery>, d: Delivery, issued: Registry, nextSequence: nat,
      generation: nat, place: Places)
    requires RegistryOk(issued, nextSequence, generation) && QueueOk(pending, issued, generation)
    requires WaitingOk(pending, place, issued)
    requires d.id !in issued && d.sequence == nextSequence && d.epoch == generation
    ensures RegistryOk(issued[d.id := d], nextSequence + 1, generation)
    ensures QueueOk(pending + [d], issued[d.id := d], generation)
    ensures WaitingOk(pending + [d], place[d.id := Waiting], issued[d.id := d])
  {
    forall x | x in pending ensures x.sequence < nextSequence { assert Genuine(issued, x); }
  }

  lemma {:induction false} EnqueueLeases(leases: seq<Lease>, d: Delivery, issued: Registry, generation: nat,
      place: Places)
    requires LeasesOk(leases, issued, generation) && HeldOk(leases, place) && place.Keys == issued.Keys
        && d.id !in issued
    ensures LeasesOk(leases, issued[d.id := d], generation) && HeldOk(leases, place[d.id := Waiting])
  {
  }

  // ----- Leasing

  lemma {:induction false} PlaceClaimedAt(place: Places, l: nat, ds: seq<Delivery>)
    requires forall i, j :: 0 <= i < j < |ds| ==> ds[i].id != ds[j].id
    ensures forall i :: 0 <= i < |ds| ==>
        ds[i].id in PlaceClaimed(place, l, ds)
        && PlaceClaimed(place, l, ds)[ds[i].id] == Held(l, i)
    ensures forall id :: id in PlaceClaimed(place, l, ds) ==>
                           (exists i :: 0 <= i < |ds| && ds[i].id == id)
                               || (id in place && place[id] == PlaceClaimed(place, l, ds)[id])
    ensures forall id :: id in place ==> id in PlaceClaimed(place, l, ds)
  {
    if ds != [] {
      var n := |ds| - 1;
      PlaceClaimedAt(place, l, ds[..n]);
      var rest := PlaceClaimed(place, l, ds[..n]);
      assert PlaceClaimed(place, l, ds) == rest[ds[n].id := Held(l, n)];
      forall i | 0 <= i < |ds| ensures PlaceClaimed(place, l, ds)[ds[i].id] == Held(l, i) {
        if i < n { assert ds[..n][i] == ds[i]; }
      }
      forall id | id in PlaceClaimed(place, l, ds) && !(exists i :: 0 <= i < |ds| && ds[i].id == id)
        ensures id in place && place[id] == PlaceClaimed(place, l, ds)[id]
      {
        assert id != ds[n].id;
        forall i | 0 <= i < n ensures ds[..n][i].id != id { assert ds[..n][i] == ds[i]; }
      }
    }
  }

  lemma {:induction false} GenuineDistinct(issued: Registry, s: seq<Delivery>)
    requires Ascending(s, Sequence) && forall d :: d in s ==> Genuine(issued, d)
    ensures forall i, j :: 0 <= i < j < |s| ==> s[i].id != s[j].id
  {
    forall i, j | 0 <= i < j < |s| ensures s[i].id != s[j].id {
      assert s[i] in s && s[j] in s;
      assert Genuine(issued, s[i]) && Genuine(issued, s[j]);
      assert s[i].sequence < s[j].sequence;
    }
  }

  /** Where everything is after a lease: claimed deliveries moved from the queue to the lease, the rest stayed. */
  lemma {:induction false} ClaimedPlaces(w: World, ds: seq<Delivery>)
    requires Inv(w)
    ensures var claimed := Claimed(w.pending, ds);
            var place' := PlaceClaimed(w.place, |w.leases|, claimed);
            && Ascending(claimed, Sequence)
            && place'.Keys == w.place.Keys
            && (forall d :: d in claimed ==> d in w.pending && Genuine(w.issued, d))
            && (forall i :: 0 <= i < |claimed| ==> place'[claimed[i].id] == Held(|w.leases|, i))
            && (forall id :: id in w.place && w.issued[id] !in claimed ==> place'[id] == w.place[id])
            && (forall id :: id in w.place && w.issued[id] in claimed ==> w.place[id].Waiting? && place'[id].Held?)
  {
    var claimed := Claimed(w.pending, ds);
    var place' := PlaceClaimed(w.place, |w.leases|, claimed);
    FilterAscending(w.pending, (d: Delivery) => d in ds, Sequence);
    GenuineDistinct(w.issued, claimed);
    PlaceClaimedAt(w.place, |w.leases|, claimed);
    forall id | id in place' ensures id in w.place && (w.issued[id] !in claimed ==> place'[id] == w.place[id]) {
      if i :| 0 <= i < |claimed| && claimed[i].id == id {
        assert claimed[i] in claimed && Genuine(w.issued, claimed[i]);
      }
    }
    forall id | id in w.place && w.issued[id] in claimed ensures w.place[id].Waiting? && place'[id].Held? {
      assert w.issued[id] in w.pending;
      ClaimedHeld(claimed, place', |w.leases|, w.issued[id]);
    }
  }

  lemma {:induction false} ClaimedHeld(claimed: seq<Delivery>, place: Places, l: nat, d: Delivery)
    requires d in claimed
    requires forall i :: 0 <= i < |claimed| ==> claimed[i].id in place && place[claimed[i].id] == Held(l, i)
    ensures d.id in place && place[d.id].Held?
  {
    var i :| 0 <= i < |claimed| && claimed[i] == d;
  }

  lemma {:induction false} LeaseKeeps(w: World, ds: seq<Delivery>)
    requires Inv(w)
    ensures Inv(AfterLease(w, ds))
  {
    if CanLease(w, ds) {
      var claimed, n := Claimed(w.pending, ds), |w.leases|;
      var rest := Unclaimed(w.pending, ds);
      var place' := PlaceClaimed(w.place, n, claimed);
      var lease := Lease(NewEntries(claimed), true, w.resetGeneration);
      FilterAscending(w.pending, (d: Delivery) => d !in ds, Sequence);
      ClaimedPlaces(w, ds);
      assert QueueOk(rest, w.issued, w.resetGeneration);
      LeaseWaiting(w, ds);
      NewLeaseOk(w, claimed, place', lease);
      assert CommitsOk(w.commits, place') by {
        forall id | id in w.place && w.issued[id] in claimed ensures id !in w.commits {}
      }
    }
  }

  lemma {:induction false} LeaseWaiting(w: World, ds: seq<Delivery>)
    requires Inv(w)
    ensures WaitingOk(Unclaimed(w.pending, ds), PlaceClaimed(w.place, |w.leases|, Claimed(w.pending, ds)), w.issued)
  {
    ClaimedPlaces(w, ds);
    var rest, claimed := Unclaimed(w.pending, ds), Claimed(w.pending, ds);
    forall d | d in rest ensures d in w.pending && d !in claimed && Genuine(w.issued, d) {}
    forall id | id in w.place && w.place[id].Waiting? && w.issued[id] !in claimed ensures w.issued[id] in rest {}
  }

  /** A lease of fresh entries is appended. */
  lemma {:induction false} NewLeaseOk(w: World, claimed: seq<Delivery>, place': Places, lease: Lease)
    requires Inv(w) && w.activeLease.None? && Ascending(claimed, Sequence)
    requires lease == Lease(NewEntries(claimed), true, w.resetGeneration)
    requires place'.Keys == w.place.Keys
    requires forall d :: d in claimed ==> d in w.pending && Genuine(w.issued, d)
    requires forall i :: 0 <= i < |claimed| ==> place'[claimed[i].id] == Held(|w.leases|, i)
    requires forall id :: id in w.place && w.issued[id] !in claimed ==> place'[id] == w.place[id]
    requires forall id :: id in w.place && w.issued[id] in claimed ==> w.place[id].Waiting? && place'[id].Held?
    ensures LeasesOk(w.leases + [lease], w.issued, w.resetGeneration)
    ensures ActiveOk(w.leases + [lease], Some(|w.leases|), w.resetGeneration)
    ensures HeldOk(w.leases + [lease], place')
  {
    forall i | 0 <= i < |claimed| ensures claimed[i] in w.pending && claimed[i].epoch == w.resetGeneration {
      assert claimed[i] in claimed;
    }
    AppendLease(w.leases, lease, w.issued, w.resetGeneration);
    NewLeaseHeld(w.leases, lease, w.place, place', w.issued, claimed);
  }

  lemma {:induction false} AppendAt(leases: seq<Lease>, lease: Lease)
    ensures forall l, i :: EntryAt(leases + [lease], l, i) && l < |leases| ==> EntryAt(leases, l, i)
    ensures forall l, i :: LiveAt(leases + [lease], l, i) && l < |leases| ==> LiveAt(leases, l, i)
    ensures forall l, i :: LiveAt(leases, l, i) ==> LiveAt(leases + [lease], l, i)
    ensures forall l :: 0 <= l < |leases| ==> (leases + [lease])[l] == leases[l]
  {
  }

  lemma {:induction false} AppendLease(leases: seq<Lease>, lease: Lease, issued: Registry, generation: nat)
    requires LeasesOk(leases, issued, generation) && ActiveOk(leases, None, generation)
    requires lease.active && lease.generation == generation && AscendingEntries(lease.entries)
    requires forall i :: 0 <= i < |lease.entries| ==>
        Genuine(issued, lease.entries[i].delivery)
        && lease.entries[i].delivery.epoch == generation
    ensures LeasesOk(leases + [lease], issued, generation)
    ensures ActiveOk(leases + [lease], Some(|leases|), generation)
  {
    AppendAt(leases, lease);
  }

  ghost predicate ClaimedAt(leases: seq<Lease>, place: Places, place': Places, issued: Registry,
      claimed: seq<Delivery>) {
    && place.Keys == issued.Keys == place'.Keys
    && (forall d :: d in claimed ==> Genuine(issued, d))
    && (forall i :: 0 <= i < |claimed| ==> claimed[i].id in place' && place'[claimed[i].id] == Held(|leases|, i))
    && (forall id :: id in place && issued[id] !in claimed ==> place'[id] == place[id])
    && (forall id :: id in place && issued[id] in claimed ==> place[id].Waiting?)
  }

  lemma {:induction false} NewLeaseHeld(leases: seq<Lease>, lease: Lease, place: Places, place': Places,
      issued: Registry, claimed: seq<Delivery>)
    requires HeldOk(leases, place) && ClaimedAt(leases, place, place', issued, claimed)
    requires lease.entries == NewEntries(claimed)
    requires forall id :: id in issued ==> issued[id].id == id
    ensures HeldOk(leases + [lease], place')
  {
    var leases', n := leases + [lease], |leases|;
    AppendAt(leases, lease);
    forall l, i | LiveAt(leases', l, i)
      ensures leases'[l].entries[i].delivery.id in place' && place'[leases'[l].entries[i].delivery.id] == Held(l, i)
    {
      if l < n {
        var id := leases[l].entries[i].delivery.id;
        assert LiveAt(leases, l, i);
        assert place[id] == Held(l, i);
        assert issued[id] !in claimed;
      } else {
        assert leases'[l].entries[i] == Entry(claimed[i], Leased, None);
      }
    }
    forall id | id in place' && place'[id].Held? {
      NewLeasePlace(leases, lease, place, place', issued, claimed, id);
    }
  }

  lemma {:induction false} NewLeasePlace(leases: seq<Lease>, lease: Lease, place: Places, place': Places,
      issued: Registry, claimed: seq<Delivery>, id: string)
    requires HeldOk(leases, place) && ClaimedAt(leases, place, place', issued, claimed)
    requires lease.entries == NewEntries(claimed)
    requires id in place' && place'[id].Held? && issued[id].id == id
    ensures LiveAt(leases + [lease], place'[id].lease, place'[id].index)
    ensures (leases + [lease])[place'[id].lease].entries[place'[id].index].delivery.id == id
  {
    if issued[id] in claimed {
      var i :| 0 <= i < |claimed| && claimed[i] == issued[id];
      assert place'[claimed[i].id] == Held(|leases|, i);
    } else {
      assert LiveAt(leases, place[id].lease, place[id].index);
    }
  }

  // ----- Bulk operations on the active lease

  lemma {:induction false} BulkKeeps(w: World, l: nat, after: seq<Entry>, how: Settlement)
    requires Inv(w) && l < |w.leases| && w.leases[l].active && Weaker(w.leases[l].entries, after) && !how.WasCommitted?
    ensures Inv(w.(leases := Rewritten(w.leases, l, after), place := SettleHeld(w, l, w.leases[l].entries, after, how)))
  {
    var place' := SettleHeld(w, l, w.leases[l].entries, after, how);
    RewriteLeasesOk(w.leases, l, after, w.issued, w.resetGeneration);
    RewriteActiveOk(w.leases, l, after, w.activeLease, w.resetGeneration);
    forall id | id in w.place && w.place[id].Held?
      ensures if w.place[id].lease == l
          && !Live(after[w.place[id].index].status) then !place'[id].Held? else place'[id] == w.place[id]
    {
      assert LiveAt(w.leases, w.place[id].lease, w.place[id].index);
    }
    RewriteHeldOk(w.leases, l, after, w.place, place');
    assert WaitingOk(w.pending, place', w.issued);
    assert CommitsOk(w.commits, place');
  }

  lemma {:induction false} NothingSettled(w: World, l: nat, before: seq<Entry>, after: seq<Entry>)
    requires |before| == |after| && forall i :: 0 <= i < |after| && Live(before[i].status) ==> Live(after[i].status)
    ensures SettleHeld(w, l, before, after, WasRevoked) == w.place
  {
  }

  lemma {:induction false} RolledBackLive(entries: seq<Entry>)
    ensures var after := MapEntries(entries, RolledBack);
            Weaker(entries, after) && forall i :: 0 <= i < |after| && Live(entries[i].status) ==> Live(after[i].status)
  {
  }

  lemma {:induction false} RolledBackKeeps(w: World, l: nat)
    requires Inv(w) && l < |w.leases| && w.leases[l].active
    ensures Inv(w.(leases := Rewritten(w.leases, l, MapEntries(w.leases[l].entries, RolledBack))))
  {
    var after := MapEntries(w.leases[l].entries, RolledBack);
    RolledBackLive(w.leases[l].entries);
    NothingSettled(w, l, w.leases[l].entries, after);
    BulkKeeps(w, l, after, WasRevoked);
    var w1 := w.(leases := Rewritten(w.leases, l, after), place :=
        SettleHeld(w, l, w.leases[l].entries, after, WasRevoked));
    assert w1 == w.(leases := Rewritten(w.leases, l, after));
  }

  lemma {:induction false} RollbackKeeps(w: World, l: nat)
    requires Inv(w) && l < |w.leases|
    ensures Inv(AfterRollback(w, l))
    ensures AfterRollback(w, l).pending == w.pending
  {
    if w.leases[l].active {
      RolledBackKeeps(w, l);
      FinishKeeps(w.(leases := Rewritten(w.leases, l, MapEntries(w.leases[l].entries, RolledBack))), l);
    }
  }

  lemma {:induction false} LeaseRevokeKeeps(w: World, l: nat, kind: string)
    requires Inv(w) && l < |w.leases|
    ensures Inv(LeaseRevoke(w, l, kind))
  {
    var lease := w.leases[l];
    if lease.active {
      var after := MapEntries(lease.entries, (e: Entry) => RevokedOf(kind, e));
      BulkKeeps(w, l, after, WasRevoked);
      FinishKeeps(w.(leases := Rewritten(w.leases, l, after), place :=
          SettleHeld(w, l, lease.entries, after, WasRevoked)), l);
    }
  }

  /** Pending deliveries leave the inbox for good. */
  lemma {:induction false} RemovePendingKeeps(w: World, keep: Delivery -> bool, how: Settlement)
    requires Inv(w) && !how.WasCommitted?
    ensures Inv(w.(pending := Filter(w.pending, keep),
                   place := SettleWaiting(w, Ids(Filter(w.pending, (d: Delivery) => !keep(d))), how)))
  {
    var gone := Filter(w.pending, (d: Delivery) => !keep(d));
    RestQueued(w.pending, keep, w.issued, w.resetGeneration);
    RestWaits(w, keep, gone, how);
    SettledElsewhere(w, Ids(gone), how);
  }

  lemma {:induction false} RestQueued(pending: seq<Delivery>, keep: Delivery -> bool, issued: Registry, generation: nat)
    requires QueueOk(pending, issued, generation)
    ensures QueueOk(Filter(pending, keep), issued, generation)
  {
    FilterAscending(pending, keep, Sequence);
  }

  lemma {:induction false} RestWaits(w: World, keep: Delivery -> bool, gone: seq<Delivery>, how: Settlement)
    requires WaitingOk(w.pending, w.place, w.issued) && (forall d :: d in w.pending ==> Genuine(w.issued, d))
    requires forall id :: id in w.issued ==> w.issued[id].id == id
    requires forall d :: d in gone <==> d in w.pending && !keep(d)
    ensures WaitingOk(Filter(w.pending, keep), SettleWaiting(w, Ids(gone), how), w.issued)
  {
    var rest := Filter(w.pending, keep);
    var place' := SettleWaiting(w, Ids(gone), how);
    forall d | d in rest ensures d.id in place' && place'[d.id] == Waiting {
      assert d in w.pending && Genuine(w.issued, d);
      assert d.id !in Ids(gone);
    }
    forall id | id in place' && place'[id].Waiting? ensures w.issued[id] in rest {
      assert w.issued[id] in w.pending;
      assert w.issued[id] in gone ==> id in Ids(gone);
    }
  }

  /** Settling what waits touches neither what is held nor what was committed. */
  lemma {:induction false} SettledElsewhere(w: World, gone: set<string>, how: Settlement)
    requires HeldOk(w.leases, w.place) && CommitsOk(w.commits, w.place) && !how.WasCommitted?
    ensures HeldOk(w.leases, SettleWaiting(w, gone, how)) && CommitsOk(w.commits, SettleWaiting(w, gone, how))
  {
  }

  lemma {:induction false} RevokeKeeps(w: World, kind: string)
    requires Inv(w)
    ensures Inv(AfterRevoke(w, kind))
  {
    var keep := (d: Delivery) => d.kind != kind;
    RemovePendingKeeps(w, keep, WasRevoked);
    FilterSame(w.pending, (d: Delivery) => !keep(d), (d: Delivery) => d.kind == kind);
    var w1 := w.(pending := Filter(w.pending, keep), place :=
        SettleWaiting(w, Ids(OfKind(w.pending, kind)), WasRevoked));
    FilterSame(w.pending, keep, (d: Delivery) => d.kind != kind);
    if w.activeLease.Some? { LeaseRevokeKeeps(w1, w.activeLease.value, kind); }
  }

  lemma {:induction false} SettleOne(w: World, id: string, how: Settlement)
    requires id in w.place && w.place[id].Waiting?
    ensures SettleWaiting(w, {id}, how) == w.place[id := Settled(how)]
  {
  }

  lemma {:induction false} WithdrawKeeps(w: World, id: string)
    requires Inv(w)
    ensures Inv(AfterWithdraw(w, id))
  {
    var d := FindPending(w.pending, id);
    if d.Some? {
      var keep := (x: Delivery) => x != d.value;
      RemovePendingKeeps(w, keep, WasWithdrawn);
      var gone := Filter(w.pending, (x: Delivery) => !keep(x));
      FilterSame(w.pending, keep, (x: Delivery) => x != d.value);
      assert Genuine(w.issued, d.value) && d.value in gone;
      assert forall x :: x in gone ==> x == d.value;
      assert Ids(gone) == {id};
      SettleOne(w, id, WasWithdrawn);
    }
  }

  /** The active lease after its discard, still counted as active. */
  function DiscardedLease(w: World): World
    requires Linked(w)
  {
    if w.activeLease.None? then w else
    var l := w.activeLease.value;
    var after := MapEntries(w.leases[l].entries, Discarded);
    w.(leases := Rewritten(w.leases, l, after), place := SettleHeld(w, l, w.leases[l].entries, after, WasRevoked))
  }

  lemma {:induction false} ResetKeeps(w: World)
    requires Inv(w)
    ensures Inv(AfterReset(w))
  {
    var w0 := DiscardedLease(w);
    DiscardedKeeps(w);
    DropPending(w0);
    var w1 := w0.(pending := [], place := SettleWaiting(w0, Ids(w0.pending), WasDropped));
    ResetFinish(w1);
    ResetIs(w);
  }

  lemma {:induction false} DiscardedKeeps(w: World)
    requires Inv(w)
    ensures Inv(DiscardedLease(w)) && DiscardedLease(w).activeLease == w.activeLease
    ensures w.activeLease.Some? ==>
              forall e :: e in DiscardedLease(w).leases[w.activeLease.value].entries && Live(e.status) ==>
                  e.status.Committing?
  {
    if w.activeLease.Some? {
      var l := w.activeLease.value;
      DiscardedLive(w.leases[l].entries);
      BulkKeeps(w, l, MapEntries(w.leases[l].entries, Discarded), WasRevoked);
      assert DiscardedLease(w).leases[l].entries == MapEntries(w.leases[l].entries, Discarded);
    }
  }

  lemma {:induction false} DiscardedLive(entries: seq<Entry>)
    ensures forall e :: e in MapEntries(entries, Discarded) && Live(e.status) ==> e.status.Committing?
    ensures Weaker(entries, MapEntries(entries, Discarded))
  {
    var after := MapEntries(entries, Discarded);
    forall e | e in after && Live(e.status) ensures e.status.Committing? {
      var i :| 0 <= i < |after| && after[i] == e;
      assert e == Discarded(entries[i]);
    }
  }

  lemma {:induction false} ResetIs(w: World)
    requires Linked(w) && Ascending(w.pending, Sequence)
    requires w.activeLease.Some? ==> w.leases[w.activeLease.value].active
    ensures var w0 := DiscardedLease(w);
            AfterReset(w) == Generation(w0.(pending := [], place := SettleWaiting(w0, Ids(w0.pending), WasDropped)))
  {
    SortAscending(w.pending, Sequence);
    var w0 := DiscardedLease(w);
    var w2 := if w.activeLease.None? then w.(resetGeneration := w.resetGeneration + 1)
              else LeaseDiscard(w.(resetGeneration := w.resetGeneration + 1), w.activeLease.value);
    assert w2.place == w0.place && w2.pending == w0.pending;
    assert SettleWaiting(w2, Ids(w2.pending), WasDropped) == SettleWaiting(w0, Ids(w0.pending), WasDropped);
  }

  lemma {:induction false} DropPending(w: World)
    requires Inv(w)
    ensures Inv(w.(pending := [], place := SettleWaiting(w, Ids(w.pending), WasDropped)))
  {
    var none := (d: Delivery) => false;
    RemovePendingKeeps(w, none, WasDropped);
    FilterNone(w.pending, none);
    FilterAll(w.pending, (d: Delivery) => !none(d));
  }

  /** The last part of a reset: the generation moves on and the discarded lease is inactive. */
  function Generation(w: World): World
    requires Linked(w)
  {
    w.(resetGeneration := w.resetGeneration + 1, activeLease := None,
       leases := if w.activeLease.None? then w.leases
                 else w.leases[w.activeLease.value := w.leases[w.activeLease.value].(active := false)])
  }

  lemma {:induction false} ResetFinish(w: World)
    requires Inv(w) && w.pending == []
    requires w.activeLease.Some? ==>
               forall e :: e in w.leases[w.activeLease.value].entries && Live(e.status) ==> e.status.Committing?
    ensures Inv(Generation(w))
  {
    var leases := w.leases;
    var leases' := Generation(w).leases;
    forall m, j | EntryAt(leases', m, j)
      ensures EntryAt(leases, m, j) && leases'[m].entries == leases[m].entries
          && (LiveAt(leases', m, j) <==> LiveAt(leases, m, j))
      ensures leases'[m].generation == leases[m].generation
    {
    }
    forall m, j | LiveAt(leases, m, j) ensures LiveAt(leases', m, j) { assert EntryAt(leases', m, j); }
    forall m, j | LiveAt(leases', m, j) ensures leases'[m].entries[j].status.Committing? {
      assert leases[m].entries[j] in leases[m].entries;
    }
    assert LeasesOk(leases', w.issued, w.resetGeneration + 1);
    assert ActiveOk(leases', None, w.resetGeneration + 1);
    assert HeldOk(leases', w.place);
  }

  // ----- Every call

  /** Whatever is called, on whatever handle, the invariant stands. */
  lemma {:induction false} NextKeepsInv(w: World, c: Call)
    requires Inv(w) && Callable(w, c)
    ensures Inv(Next(w, c))
  {
    match c
    case Enqueue(id, kind, messages) => EnqueueKeeps(w, id, kind, messages);
    case TakeLease(ds) => LeaseKeeps(w, ds);
    case Prepare(l, id, attempt) => PrepareKeeps(w, l, id, attempt);
    case CompletePreparation(l, id, attempt, o) => CompletePreparationKeeps(w, l, id, attempt, o);
    case BeginCommit(l, id, attempt) => BeginCommitKeeps(w, l, id, attempt);
    case SettleCommit(l, id, attempt, o) => SettleCommitKeeps(w, l, id, attempt, o);
    case Rollback(l) => RollbackKeeps(w, l);
    case SettleRollback(l, id, o) => SettleRollbackKeeps(w, l, id, o);
    case RevokeKind(kind) => RevokeKeeps(w, kind);
    case Withdraw(id) => WithdrawKeeps(w, id);
    case Reset => ResetKeeps(w);
  }

  lemma {:induction false} PrepareKeeps(w: World, l: nat, id: string, attempt: string)
    requires Inv(w) && l < |w.leases|
    ensures Inv(AfterPrepare(w, l, id, attempt))
  {
    var lease := w.leases[l];
    if lease.active && Has(lease, id, Leased) {
      var i := Find(lease.entries, id).value;
      LiveStatusKeeps(w, l, i, lease.entries[i].(status := Preparing, attempt := Some(attempt)));
    }
  }

  lemma {:induction false} CompletePreparationKeeps(w: World, l: nat, id: string, attempt: string, o: PrepareOutcome)
    requires Inv(w) && l < |w.leases|
    ensures Inv(AfterCompletePreparation(w, l, id, attempt, o))
  {
    var lease := w.leases[l];
    if lease.active && HasAttempt(lease, id, Preparing, attempt) {
      var i := Find(lease.entries, id).value;
      if o.Prepared? { LiveStatusKeeps(w, l, i, lease.entries[i].(status := Ready)); }
      else { ConcludeKeeps(w, l, i, if o.RetainedPreparation? then Restored else TerminallyFailed); }
    }
  }

  lemma {:induction false} BeginCommitKeeps(w: World, l: nat, id: string, attempt: string)
    requires Inv(w) && l < |w.leases|
    ensures Inv(AfterBeginCommit(w, l, id, attempt))
  {
    var lease := w.leases[l];
    if lease.active && HasAttempt(lease, id, Ready, attempt) {
      var i := Find(lease.entries, id).value;
      LiveStatusKeeps(w, l, i, lease.entries[i].(status := Committing));
    }
  }

  lemma {:induction false} SettleCommitKeeps(w: World, l: nat, id: string, attempt: string, o: CommitOutcome)
    requires Inv(w) && l < |w.leases|
    ensures Inv(AfterSettleCommit(w, l, id, attempt, o))
  {
    var lease := w.leases[l];
    if HasAttempt(lease, id, Committing, attempt) {
      var s := match o
        case CommittedOutcome => Committed
        case RetainedCommit => Restored
        case FailedCommit => TerminallyFailed;
      ConcludeKeeps(w, l, Find(lease.entries, id).value, s);
    }
  }

  lemma {:induction false} SettleRollbackKeeps(w: World, l: nat, id: string, o: RollbackOutcome)
    requires Inv(w) && l < |w.leases|
    ensures Inv(AfterSettleRollback(w, l, id, o))
  {
    var lease := w.leases[l];
    if Has(lease, id, RollbackRevoked) {
      ConcludeKeeps(w, l, Find(lease.entries, id).value, Revoked);
    } else if Has(lease, id, RollingBack) {
      ConcludeKeeps(w, l, Find(lease.entries, id).value, if o.RetainedRollback? then Restored else TerminallyFailed);
    }
  }
}
