/**
 * `DeliveryInbox` and `InboxDeliveryLease` as objects: their fields are changed in place, a lease calls
 * back into its inbox, and a caller may keep and use any number of stale lease handles. Every method is
 * tied to the step of the specification it performs.
 */
module Inbox {
  import opened Prelude
  import opened InboxSpec
  import opened InboxInvariant
  import opened InboxRuns
  import OM = OrderedMaps

  /** The delivery of a lease with this id. */
  function DeliveryOf(entries: seq<Entry>, id: string): Option<Delivery> {
    var i := Find(entries, id);
    if i.None? then None else Some(entries[i.value].delivery)
  }

  class InboxDeliveryLease {
    var entries: seq<Entry>
    var active: bool
    const inbox: DeliveryInbox
    /** The reset generation the restore callback captured. */
    const generation: nat
    /** Which of the inbox's leases this is. */
    ghost const index: nat

    constructor (inbox: DeliveryInbox, claimed: seq<Delivery>, generation: nat, ghost index: nat)
      ensures this.inbox == inbox && this.generation == generation && this.index == index
      ensures active && entries == NewEntries(claimed)
    {
      this.inbox, this.generation, this.index := inbox, generation, index;
      active := true;
      entries := NewEntries(claimed);
    }

    ghost predicate Valid()
      reads this, inbox, inbox.handles
    {
      inbox.Valid() && index < |inbox.handles| && inbox.handles[index] == this
    }

    function AsLease(): Lease
      reads this
    {
      Lease(entries, active, generation)
    }

    /** `get deliveries` */
    method LeasedDeliveries() returns (ds: seq<Delivery>)
      ensures ds == if active then Deliveries(Filter(entries, (e: Entry) => e.status.Leased?)) else []
    {
      if !active { return []; }
      ds := [];
      for n := 0 to |entries|
        invariant ds + Deliveries(Filter(entries[n..], (e: Entry) => e.status.Leased?)) ==
                  Deliveries(Filter(entries, (e: Entry) => e.status.Leased?))
      {
        assert entries[n..][0] == entries[n] && entries[n..][1..] == entries[n + 1..];
        if entries[n].status.Leased? { ds := ds + [entries[n].delivery]; }
      }
    }

    method Owns(id: string) returns (owns: bool)
      ensures owns <==> Has(AsLease(), id, Committing) ||
                        (active && (Has(AsLease(), id, Leased) || Has(AsLease(), id, Preparing)
                            || Has(AsLease(), id, Ready)))
    {
      var i := Find(entries, id);
      if i.None? { return false; }
      var s := entries[i.value].status;
      owns := s.Committing? || (active && (s.Leased? || s.Preparing? || s.Ready?));
    }

    method Prepare(id: string, attempt: string) returns (d: Option<Delivery>)
      requires Valid()
      modifies this, inbox`world
      ensures Valid() && inbox.handles == old(inbox.handles)
      ensures inbox.world == AfterPrepare(old(inbox.world), index, id, attempt)
      ensures d == if old(active && Has(AsLease(), id, Leased)) then DeliveryOf(old(entries), id) else None
    {
      if !active { return None; }
      var i := Find(entries, id);
      if i.None? || !entries[i.value].status.Leased? { return None; }
      entries := entries[i.value := entries[i.value].(status := Preparing, attempt := Some(attempt))];
      inbox.world := AfterPrepare(inbox.world, index, id, attempt);
      d := Some(entries[i.value].delivery);
    }

    method CompletePreparation(id: string, attempt: string, o: PrepareOutcome) returns (d: Option<Delivery>)
      requires Valid()
      modifies this, inbox
      ensures Valid() && inbox.handles == old(inbox.handles)
      ensures inbox.world == AfterCompletePreparation(old(inbox.world), index, id, attempt, o)
      ensures d == if old(active && HasAttempt(AsLease(), id, Preparing, attempt)) then DeliveryOf(old(entries), id)
          else None
    {
      var i := Find(entries, id);
      if !active || i.None? || !entries[i.value].status.Preparing? || entries[i.value].attempt != Some(attempt) {
        return None;
      }
      d := Some(entries[i.value].delivery);
      match o {
        case Prepared =>
          entries := entries[i.value := entries[i.value].(status := Ready)];
          inbox.world := WithStatus(inbox.world, index, i.value, Ready);
        case RetainedPreparation => ConcludeEntry(i.value, Restored);
        case FailedPreparation => ConcludeEntry(i.value, TerminallyFailed);
      }
    }

    /** Cross the revocation cutoff. */
    method BeginCommit(id: string, attempt: string) returns (d: Option<Delivery>)
      requires Valid()
      modifies this, inbox`world
      ensures Valid() && inbox.handles == old(inbox.handles)
      ensures inbox.world == AfterBeginCommit(old(inbox.world), index, id, attempt)
      ensures d == if old(active && HasAttempt(AsLease(), id, Ready, attempt)) then DeliveryOf(old(entries), id)
          else None
    {
      if !active { return None; }
      var i := Find(entries, id);
      if i.None? || !entries[i.value].status.Ready? || entries[i.value].attempt != Some(attempt) { return None; }
      entries := entries[i.value := entries[i.value].(status := Committing)];
      inbox.world := WithStatus(inbox.world, index, i.value, Committing);
      d := Some(entries[i.value].delivery);
    }

    method SettleCommit(id: string, attempt: string, o: CommitOutcome) returns (d: Option<Delivery>)
      requires Valid()
      modifies this, inbox
      ensures Valid() && inbox.handles == old(inbox.handles)
      ensures inbox.world == AfterSettleCommit(old(inbox.world), index, id, attempt, o)
      ensures d == if old(HasAttempt(AsLease(), id, Committing, attempt)) then DeliveryOf(old(entries), id) else None
    {
      var i := Find(entries, id);
      if i.None? || !entries[i.value].status.Committing? || entries[i.value].attempt != Some(attempt) { return None; }
      d := Some(entries[i.value].delivery);
      match o {
        case CommittedOutcome => ConcludeEntry(i.value, Committed);
        case RetainedCommit => ConcludeEntry(i.value, Restored);
        case FailedCommit => ConcludeEntry(i.value, TerminallyFailed);
      }
    }

    method SettleRollback(id: string, o: RollbackOutcome) returns (d: Option<Delivery>)
      requires Valid()
      modifies this, inbox
      ensures Valid() && inbox.handles == old(inbox.handles)
      ensures inbox.world == AfterSettleRollback(old(inbox.world), index, id, o)
      ensures d == if old(Has(AsLease(), id, RollingBack) || Has(AsLease(), id, RollbackRevoked))
          then DeliveryOf(old(entries), id) else None
    {
      var i := Find(entries, id);
      if i.None? || (!entries[i.value].status.RollingBack?
          && !entries[i.value].status.RollbackRevoked?) { return None; }
      d := Some(entries[i.value].delivery);
      if entries[i.value].status.RollbackRevoked? {
        ConcludeEntry(i.value, Revoked);
      } else if o.RetainedRollback? {
        ConcludeEntry(i.value, Restored);
      } else {
        ConcludeEntry(i.value, TerminallyFailed);
      }
    }

    /** Every entry that is not yet committing turns to `RollingBack`, and its delivery is returned. */
    method Rollback() returns (rollingBack: seq<Delivery>)
      requires Valid()
      modifies this, inbox
      ensures Valid() && inbox.handles == old(inbox.handles)
      ensures inbox.world == AfterRollback(old(inbox.world), index)
      ensures rollingBack == if old(active) then Deliveries(Filter(old(entries), (e: Entry) => PreCommit(e.status)))
          else []
    {
      if !active { return []; }
      ghost var w := inbox.world;
      entries, rollingBack := RollBackEntries(entries);
      inbox.world := w.(leases := Rewritten(w.leases, index, entries));
      FinishIfExhausted();
    }

    /** The entry ends: its status changes, its delivery may go back, and the lease may finish. */
    method ConcludeEntry(i: nat, s: Status)
      requires Valid() && i < |entries| && Live(entries[i].status)
      requires s.Restored? || s.Committed? || s.TerminallyFailed? || s.Revoked?
      modifies this, inbox
      ensures Valid() && inbox.handles == old(inbox.handles)
      ensures inbox.world == Conclude(old(inbox.world), index, i, s)
    {
      ghost var w := inbox.world;
      ghost var w2 := ConcludedWorld(w, index, i, s);
      var d := entries[i].delivery;
      entries := entries[i := entries[i].(status := s)];
      if s.Restored? { inbox.RestoreSettlementCallback(d, generation); }
      ConcludedFields(w, index, i, s);
      inbox.world := w2;
      FinishIfExhausted();
    }

    method FinishIfExhausted()
      requires Valid()
      modifies this, inbox
      ensures Valid() && inbox.handles == old(inbox.handles)
      ensures inbox.world == InboxSpec.FinishIfExhausted(old(inbox.world), index)
    {
      var open := false;
      for n := 0 to |entries|
        invariant open <==> exists i :: 0 <= i < n && Live(entries[i].status)
      {
        if Live(entries[n].status) { open := true; }
      }
      assert Exhausted(entries) <==> !open;
      if !active || open { return; }
      active := false;
      inbox.FinishLeaseCallback(this);
    }

    /** `revoke` of one kind. */
    method Revoke(kind: string) returns (revoked: seq<Delivery>)
      requires Valid()
      modifies this, inbox
      ensures Valid() && inbox.handles == old(inbox.handles)
      ensures inbox.world == LeaseRevoke(old(inbox.world), index, kind)
      ensures revoked == if old(active) then Deliveries(Filter(old(entries), (e: Entry) => GivesUp(e, kind))) else []
    {
      if !active { return []; }
      ghost var w := inbox.world;
      entries, revoked := RevokeEntries(entries, kind);
      inbox.world := w.(leases := Rewritten(w.leases, index, entries),
                        place := SettleHeld(w, index, w.leases[index].entries, entries, WasRevoked));
      FinishIfExhausted();
    }
  }

  class DeliveryInbox {
    var pending: seq<Delivery>
    var activeLease: InboxDeliveryLease?
    var nextSequence: nat
    var resetGeneration: nat
    var issuedIds: set<string>
    /** Every lease handle ever issued, and the value they and the inbox stand for. */
    ghost var handles: seq<InboxDeliveryLease>
    ghost var world: World

    /** The fields hold what `world` says, and the lease that counts as active is active. */
    ghost predicate Valid()
      reads this, handles
    {
      && pending == world.pending
      && nextSequence == world.nextSequence
      && resetGeneration == world.resetGeneration
      && issuedIds == world.issued.Keys
      && |handles| == |world.leases|
      && (forall i :: 0 <= i < |handles| ==>
          handles[i].inbox == this && handles[i].index == i
          && handles[i].AsLease() == world.leases[i])
      && (activeLease == null <==> world.activeLease.None?)
      && (world.activeLease.Some? ==>
          world.activeLease.value < |handles|
          && activeLease == handles[world.activeLease.value]
                                          && activeLease.active)
    }

    constructor ()
      ensures Valid() && world == EMPTY && handles == []
    {
      pending, activeLease, nextSequence, resetGeneration, issuedIds := [], null, 0, 0, {};
      handles, world := [], EMPTY;
    }

    /** Admit a delivery under a fresh id; an id issued before is refused and changes nothing. */
    method Enqueue(id: string, kind: string, messages: seq<string>) returns (r: Result<Delivery>)
      requires Valid()
      modifies this
      ensures Valid() && handles == old(handles)
      ensures world == AfterEnqueue(old(world), id, kind, messages)
      ensures r.Ok? <==> id !in old(issuedIds)
      ensures r.Ok? ==> pending == old(pending) + [r.value]
    {
      if id in issuedIds { return Err("Delivery inbox generated duplicate delivery ID"); }
      issuedIds := issuedIds + {id};
      var d := Delivery(nextSequence, id, kind, messages, nextSequence, resetGeneration);
      nextSequence := nextSequence + 1;
      pending := pending + [d];
      world := AfterEnqueue(world, id, kind, messages);
      r := Ok(d);
    }

    method Select(kind: string, mode: QueueMode) returns (ds: seq<Delivery>)
      requires Valid()
      ensures ds == InboxRuns.Select(pending, kind, mode)
    {
      var matching := OfKind(pending, kind);
      ds := if mode.All? || |matching| == 0 then matching else matching[..1];
    }

    /** Claim per-kind FIFO prefixes; a selection that is not one is refused and changes nothing. */
    method Lease(ds: seq<Delivery>) returns (r: Result<InboxDeliveryLease>)
      requires Valid()
      modifies this
      ensures Valid() && world == AfterLease(old(world), ds)
      ensures r.Ok? <==> CanLease(old(world), ds)
      ensures r.Ok? ==> fresh(r.value) && handles == old(handles) + [r.value]
      ensures r.Err? ==> handles == old(handles)
      ensures r.Ok? ==>
          r.value.entries == NewEntries(Claimed(old(pending), ds))
          && pending == Unclaimed(old(pending), ds)
    {
      if activeLease != null && activeLease.active { return Err("Delivery inbox already has an active lease"); }
      assert world.activeLease.None?;
      var valid := CheckSelection(pending, ds);
      if !valid { return Err("Delivery selection is not a pending FIFO prefix"); }
      var lease := Claim(ds);
      r := Ok(lease);
    }

    /** The part of `lease` after its checks. */
    method Claim(ds: seq<Delivery>) returns (lease: InboxDeliveryLease)
      requires Valid() && CanLease(world, ds)
      modifies this
      ensures Valid() && world == AfterLease(old(world), ds)
      ensures fresh(lease) && handles == old(handles) + [lease]
      ensures lease.entries == NewEntries(Claimed(old(pending), ds)) && pending == Unclaimed(old(pending), ds)
    {
      LeaseFields(world, ds);
      var claimed := Claimed(pending, ds);
      pending := Unclaimed(pending, ds);
      lease := new InboxDeliveryLease(this, claimed, resetGeneration, |handles|);
      world := AfterLease(world, ds);
      handles := handles + [lease];
      activeLease := lease;
    }

    /** Remove every delivery of a kind, pending or leased before its commit. */
    method Revoke(kind: string) returns (revoked: seq<Delivery>)
      requires Valid()
      modifies this, handles
      ensures Valid() && handles == old(handles)
      ensures world == AfterRevoke(old(world), kind)
      ensures revoked == RevokeReply(old(world), kind)
    {
      ghost var w := world;
      revoked := OfKind(pending, kind);
      pending := Filter(pending, (d: Delivery) => d.kind != kind);
      world := QueueRevokedWorld(w, kind);
      if activeLease != null {
        var leased := activeLease.Revoke(kind);
        revoked := revoked + leased;
      } else {
        assert revoked + [] == revoked;
      }
      revoked := SortBy(revoked, Sequence);
    }

    /** The queued delivery of this id leaves the queue; without one, nothing changes. */
    method Withdraw(id: string) returns (d: Option<Delivery>)
      requires Valid()
      modifies this
      ensures Valid() && handles == old(handles)
      ensures world == AfterWithdraw(old(world), id)
      ensures d == FindPending(old(pending), id)
    {
      ghost var w' := AfterWithdraw(world, id);
      WithdrawFields(world, id);
      d := FindPending(pending, id);
      if d.None? { return; }
      pending := Filter(pending, (x: Delivery) => x != d.value);
      world := w';
    }

    method RollbackActiveLease() returns (ds: seq<Delivery>)
      requires Valid()
      modifies this, handles
      ensures Valid() && handles == old(handles)
      ensures world == if old(world).activeLease.None? then old(world)
          else AfterRollback(old(world), old(world).activeLease.value)
      ensures ds == if old(activeLease) == null then []
          else Deliveries(Filter(old(activeLease.entries), (e: Entry) => PreCommit(e.status)))
    {
      if activeLease == null { return []; }
      ds := activeLease.Rollback();
    }

    /** Start over: what is pending or leased before its commit is dropped. */
    method Reset()
      requires Valid()
      modifies this, handles
      ensures Valid() && handles == old(handles)
      ensures world == AfterReset(old(world))
    {
      ghost var w := world;
      ghost var w' := AfterReset(w);
      ResetFields(w);
      resetGeneration := resetGeneration + 1;
      if activeLease != null {
        activeLease.active := false;
        var entries := DiscardEntries(activeLease.entries);
        activeLease.entries := entries;
      }
      pending := [];
      activeLease := null;
      world := w';
    }

    // ----- The callbacks a lease holds

    method RestoreSettlementCallback(d: Delivery, generation: nat)
      modifies this`pending
      ensures pending == if resetGeneration != generation then old(pending) else SortBy([d] + old(pending), Sequence)
    {
      if resetGeneration != generation { return; }
      pending := SortBy([d] + pending, Sequence);
    }

    method FinishLeaseCallback(lease: InboxDeliveryLease)
      requires lease.index < |handles| && handles[lease.index] == lease && !lease.active
      requires forall i :: 0 <= i < |handles| ==> handles[i].inbox == this && handles[i].index == i
      requires Exhausted(lease.entries) && pending == world.pending
      requires nextSequence == world.nextSequence && resetGeneration == world.resetGeneration
          && issuedIds == world.issued.Keys
      requires |handles| == |world.leases|
      requires forall i :: 0 <= i < |handles| && i != lease.index ==> handles[i].AsLease() == world.leases[i]
      requires world.leases[lease.index] == lease.AsLease().(active := true)
      requires (activeLease == null <==> world.activeLease.None?)
      requires world.activeLease.Some? ==>
          world.activeLease.value < |handles|
          && activeLease == handles[world.activeLease.value]
      requires activeLease != null && activeLease != lease ==> activeLease.active
      modifies this
      ensures Valid() && handles == old(handles)
      ensures world == InboxSpec.FinishIfExhausted(old(world), lease.index)
    {
      ghost var w := world;
      world := InboxSpec.FinishIfExhausted(w, lease.index);
      if activeLease != lease { return; }
      pending := SortBy(pending, Sequence);
      activeLease := null;
    }
  }

  // ----- The loops over a lease's entries

  /** One more entry rewritten in place. */
  lemma {:induction false} MappedSnoc(entries: seq<Entry>, n: nat, f: Entry -> Entry)
    requires n < |entries|
    ensures var after := MapEntries(entries[..n], f) + entries[n..];
            after[n] == entries[n] && after[n := f(entries[n])] == MapEntries(entries[..n + 1], f) + entries[n + 1..]
    ensures f(entries[n]) == entries[n] ==>
        MapEntries(entries[..n], f) + entries[n..] == MapEntries(entries[..n + 1], f) + entries[n + 1..]
  {
  }

  lemma {:induction false} TakenSnoc(entries: seq<Entry>, n: nat, p: Entry -> bool)
    requires n < |entries|
    ensures Deliveries(Filter(entries[..n + 1], p)) ==
            Deliveries(Filter(entries[..n], p)) + if p(entries[n]) then [entries[n].delivery] else []
  {
    assert entries[..n + 1] == entries[..n] + [entries[n]];
    FilterConcat(entries[..n], [entries[n]], p);
    if p(entries[n]) { FilterAll([entries[n]], p); } else { FilterNone([entries[n]], p); }
  }

  method RollBackEntries(entries: seq<Entry>) returns (after: seq<Entry>, rollingBack: seq<Delivery>)
    ensures after == MapEntries(entries, RolledBack)
    ensures rollingBack == Deliveries(Filter(entries, (e: Entry) => PreCommit(e.status)))
  {
    after, rollingBack := entries, [];
    ghost var p := (e: Entry) => PreCommit(e.status);
    for n := 0 to |entries|
      invariant after == MapEntries(entries[..n], RolledBack) + entries[n..]
      invariant rollingBack == Deliveries(Filter(entries[..n], p))
    {
      TakenSnoc(entries, n, p);
      MappedSnoc(entries, n, RolledBack);
      if PreCommit(after[n].status) {
        after := after[n := after[n].(status := RollingBack)];
        rollingBack := rollingBack + [after[n].delivery];
      }
    }
    assert entries[..|entries|] == entries;
  }

  method RevokeEntries(entries: seq<Entry>, kind: string) returns (after: seq<Entry>, revoked: seq<Delivery>)
    ensures after == MapEntries(entries, (e: Entry) => RevokedOf(kind, e))
    ensures revoked == Deliveries(Filter(entries, (e: Entry) => GivesUp(e, kind)))
  {
    after, revoked := entries, [];
    ghost var p := (e: Entry) => GivesUp(e, kind);
    ghost var f := (e: Entry) => RevokedOf(kind, e);
    for n := 0 to |entries|
      invariant after == MapEntries(entries[..n], f) + entries[n..]
      invariant revoked == Deliveries(Filter(entries[..n], p))
    {
      TakenSnoc(entries, n, p);
      MappedSnoc(entries, n, f);
      var e := after[n];
      if e.delivery.kind == kind {
        if PreCommit(e.status) {
          after := after[n := e.(status := Revoked)];
          revoked := revoked + [e.delivery];
        } else if e.status.RollingBack? {
          after := after[n := e.(status := RollbackRevoked)];
          revoked := revoked + [e.delivery];
        }
      }
    }
    assert entries[..|entries|] == entries;
  }

  method DiscardEntries(entries: seq<Entry>) returns (after: seq<Entry>)
    ensures after == MapEntries(entries, Discarded)
  {
    after := entries;
    for n := 0 to |entries|
      invariant |after| == |entries|
      invariant forall i :: 0 <= i < n ==> after[i] == Discarded(entries[i])
      invariant forall i :: n <= i < |entries| ==> after[i] == entries[i]
    {
      if !after[n].status.Committing? && !after[n].status.Committed? {
        after := after[n := after[n].(status := Revoked)];
      }
    }
  }

  // ----- Checking a selection

  lemma {:induction false} OfKindSnoc(s: seq<Delivery>, d: Delivery, kind: string)
    ensures OfKind(s + [d], kind) == if d.kind == kind then OfKind(s, kind) + [d] else OfKind(s, kind)
  {
    var p := (x: Delivery) => x.kind == kind;
    FilterConcat(s, [d], p);
    if d.kind == kind { FilterAll([d], p); } else { FilterNone([d], p); }
  }

  /** The deliveries selected of each kind, in selection order. */
  ghost predicate Grouped(groups: OM.OMap<string, seq<Delivery>>, ds: seq<Delivery>) {
    && OM.Distinct(groups)
    && (forall kind :: OM.Get(groups, kind) == if OfKind(ds, kind) == [] then None else Some(OfKind(ds, kind)))
  }

  /** The second loop of `lease`. */
  method GroupByKind(ds: seq<Delivery>) returns (groups: OM.OMap<string, seq<Delivery>>)
    ensures Grouped(groups, ds)
  {
    groups := [];
    for n := 0 to |ds|
      invariant Grouped(groups, ds[..n])
    {
      var d := ds[n];
      var held := OM.Get(groups, d.kind);
      var selected := (if held.Some? then held.value else []) + [d];
      assert ds[..n + 1] == ds[..n] + [d];
      forall kind ensures OM.Get(OM.Put(groups, d.kind, selected), kind) ==
                          if OfKind(ds[..n + 1], kind) == [] then None else Some(OfKind(ds[..n + 1], kind)) {
        OfKindSnoc(ds[..n], d, kind);
        OM.GetPut(groups, d.kind, selected, kind);
      }
      OM.PutKeeps(groups, d.kind, selected);
      groups := OM.Put(groups, d.kind, selected);
    }
    assert ds[..|ds|] == ds;
  }

  /** The first loop of `lease`: every delivery is pending here and selected once. */
  method CheckPending(pending: seq<Delivery>, ds: seq<Delivery>) returns (ok: bool)
    ensures ok <==>
        (forall i, j :: 0 <= i < j < |ds| ==> ds[i].id != ds[j].id)
        && (forall d :: d in ds ==> d in pending)
  {
    var selectedIds: set<string> := {};
    for n := 0 to |ds|
      invariant selectedIds == set i | 0 <= i < n :: ds[i].id
      invariant forall i, j :: 0 <= i < j < n ==> ds[i].id != ds[j].id
      invariant forall i :: 0 <= i < n ==> ds[i] in pending
    {
      if ds[n].id in selectedIds {
        ghost var i :| 0 <= i < n && ds[i].id == ds[n].id;
        return false;
      }
      if ds[n] !in pending {
        assert ds[n] in ds;
        return false;
      }
      selectedIds := selectedIds + {ds[n].id};
    }
    ok := true;
  }

  /** The checks of `lease`: pending, grouped by kind, and each group a prefix of its queue. */
  method CheckSelection(pending: seq<Delivery>, ds: seq<Delivery>) returns (ok: bool)
    ensures ok <==> ValidSelection(pending, ds)
  {
    ok := CheckPending(pending, ds);
    if !ok { return; }
    var groups := GroupByKind(ds);
    for n := 0 to |groups|
      invariant forall i :: 0 <= i < n ==> groups[i].1 <= OfKind(pending, groups[i].0)
    {
      var (kind, selected) := groups[n];
      OM.GetAt(groups, n);
      assert selected == OfKind(ds, kind) && selected != [];
      var queue := OfKind(pending, kind);
      for k := 0 to |selected|
        invariant k <= |queue|
        invariant forall i :: 0 <= i < k ==> selected[i] == queue[i]
      {
        if k >= |queue| || selected[k] != queue[k] {
          assert selected[0] in selected;
          assert !(selected <= queue);
          return false;
        }
      }
    }
    forall d | d in ds ensures OfKind(ds, d.kind) <= OfKind(pending, d.kind) {
      assert d in OfKind(ds, d.kind);
      OM.HasIsMember(groups, d.kind);
      var i :| 0 <= i < |groups| && groups[i].0 == d.kind;
      OM.GetAt(groups, i);
    }
    ok := true;
  }

  // ----- What the larger steps leave in the fields

  /** What a reset leaves in the fields. */
  lemma {:induction false} ResetFields(w: World)
    requires Linked(w) && (w.activeLease.Some? ==> w.leases[w.activeLease.value].active)
    ensures var w' := AfterReset(w);
            && w'.pending == [] && w'.activeLease.None? && w'.nextSequence == w.nextSequence
            && w'.resetGeneration == w.resetGeneration + 1 && w'.issued == w.issued
            && w'.leases == if w.activeLease.None? then w.leases
                            else w.leases[w.activeLease.value :=
                                   w.leases[w.activeLease.value].(entries :=
                                       MapEntries(w.leases[w.activeLease.value].entries, Discarded), active := false)]
  {
  }

  /** What concluding an entry leaves in the fields. */
  lemma {:induction false} ConcludedFields(w: World, l: nat, i: nat, s: Status)
    requires l < |w.leases| && i < |w.leases[l].entries|
    requires s.Restored? || s.Committed? || s.TerminallyFailed? || s.Revoked?
    ensures var w2 := ConcludedWorld(w, l, i, s);
            var e := w.leases[l].entries[i];
            && w2.leases == Rewritten(w.leases, l, w.leases[l].entries[i := e.(status := s)])
            && w2.activeLease == w.activeLease && w2.nextSequence == w.nextSequence
            && w2.resetGeneration == w.resetGeneration && w2.issued == w.issued
            && w2.pending == if s.Restored? && w.resetGeneration == w.leases[l].generation
                             then SortBy([e.delivery] + w.pending, Sequence) else w.pending
  {
  }

  lemma {:induction false} WithdrawFields(w: World, id: string)
    ensures var w' := AfterWithdraw(w, id);
            var d := FindPending(w.pending, id);
            && w'.leases == w.leases && w'.activeLease == w.activeLease && w'.nextSequence == w.nextSequence
            && w'.resetGeneration == w.resetGeneration && w'.issued == w.issued
            && w'.pending == if d.None? then w.pending else Filter(w.pending, (x: Delivery) => x != d.value)
  {
  }

  lemma {:induction false} LeaseFields(w: World, ds: seq<Delivery>)
    requires CanLease(w, ds)
    ensures var w' := AfterLease(w, ds);
            && w'.leases == w.leases + [InboxSpec.Lease(NewEntries(Claimed(w.pending, ds)), true, w.resetGeneration)]
            && w'.activeLease == Some(|w.leases|) && w'.nextSequence == w.nextSequence
            && w'.resetGeneration == w.resetGeneration && w'.issued == w.issued
            && w'.pending == Unclaimed(w.pending, ds)
  {
  }
}
