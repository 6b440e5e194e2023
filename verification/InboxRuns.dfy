/** The inbox over whole runs: conservation, the revocation cutoff, and leasing and giving back. */
module InboxRuns {
  import opened Prelude
  import opened InboxSpec
  import opened InboxInvariant

  /** One call; a call on a handle that was never issued cannot be made. */
  ghost function Step(w: World, c: Call): World {
    if Callable(w, c) && Linked(w) then Next(w, c) else w
  }

  ghost function Run(w: World, calls: seq<Call>): World
    decreases calls
  {
    if calls == [] then w else Run(Step(w, calls[0]), calls[1..])
  }

  lemma {:induction false} StepKeepsInv(w: World, c: Call)
    requires Inv(w)
    ensures Inv(Step(w, c))
  {
    if Callable(w, c) { NextKeepsInv(w, c); }
  }

  lemma {:induction false} RunKeepsInv(w: World, calls: seq<Call>)
    requires Inv(w)
    ensures Inv(Run(w, calls))
    decreases calls
  {
    if calls != [] {
      StepKeepsInv(w, calls[0]);
      RunKeepsInv(Step(w, calls[0]), calls[1..]);
    }
  }

  // ----- Conservation

  ghost predicate PendingAt(w: World, id: string, n: int) {
    0 <= n < |w.pending| && w.pending[n].id == id
  }

  ghost predicate HeldAt(w: World, id: string, l: int, i: int) {
    LiveAt(w.leases, l, i) && w.leases[l].entries[i].delivery.id == id
  }

  ghost predicate IsSettled(w: World, id: string) {
    id in w.place && w.place[id].Settled?
  }

  /** A delivery is in one position of the queue, in one entry of one lease, or settled. */
  ghost predicate InOnePlace(w: World, id: string) {
    || (exists n :: PendingAt(w, id, n) && (forall m :: PendingAt(w, id, m) ==> m == n)
                    && (forall l, i :: !HeldAt(w, id, l, i)) && !IsSettled(w, id))
    || (exists l, i :: HeldAt(w, id, l, i) && (forall m, j :: HeldAt(w, id, m, j) ==> m == l && j == i)
                       && (forall n :: !PendingAt(w, id, n)) && !IsSettled(w, id))
    || (IsSettled(w, id) && (forall n :: !PendingAt(w, id, n)) && (forall l, i :: !HeldAt(w, id, l, i)))
  }

  lemma {:induction false} OnePlace(w: World, id: string)
    requires Inv(w) && id in w.issued
    ensures InOnePlace(w, id)
  {
    forall n | PendingAt(w, id, n) ensures w.place[id].Waiting? && w.pending[n] == w.issued[id] {
      assert w.pending[n] in w.pending && Genuine(w.issued, w.pending[n]);
    }
    forall l, i | HeldAt(w, id, l, i) ensures w.place[id] == Held(l, i) {}
    match w.place[id]
    case Waiting =>
      var n :| 0 <= n < |w.pending| && w.pending[n] == w.issued[id];
      assert PendingAt(w, id, n);
      forall m | PendingAt(w, id, m) ensures m == n {
        assert w.pending[m] == w.pending[n];
      }
    case Held(l, i) =>
      assert HeldAt(w, id, l, i);
    case Settled(_) =>
  }

  /**
   * Over every run, stale handles and resets included: one place each, the queue in order and current,
   * no commit twice.
   */
  lemma {:induction false} LeaseConservation(calls: seq<Call>)
    ensures var w := Run(EMPTY, calls);
            && (forall id :: id in w.issued ==> InOnePlace(w, id))
            && Ascending(w.pending, Sequence)
            && (forall d :: d in w.pending ==> d.epoch == w.resetGeneration)
            && (forall i, j :: 0 <= i < j < |w.commits| ==> w.commits[i] != w.commits[j])
  {
    RunKeepsInv(EMPTY, calls);
    var w := Run(EMPTY, calls);
    forall id | id in w.issued ensures InOnePlace(w, id) { OnePlace(w, id); }
  }

  // ----- What one call may do to a delivery and to a lease entry

  /** The call that settles this attempt. */
  predicate Settles(c: Call, l: nat, e: Entry) {
    c.SettleCommit? && c.l == l && c.id == e.delivery.id && e.attempt == Some(c.attempt)
  }

  /**
   * A settled delivery stays settled; a held one stays, goes back as restored, or is settled, committed
   * only by its entry.
   */
  ghost predicate PlaceMove(w: World, w': World, id: string) {
    && id in w.place && id in w'.place
    && match w.place[id]
       case Settled(how) => w'.place[id] == Settled(how)
       case Waiting => w'.place[id] != Settled(WasCommitted)
       case Held(l, i) =>
         && EntryAt(w'.leases, l, i)
         && match w'.place[id]
            case Held(m, j) => m == l && j == i
            case Waiting => w'.leases[l].entries[i].status.Restored?
            case Settled(how) => how.WasCommitted? ==> w'.leases[l].entries[i].status.Committed?
  }

  /** A commit under way is only settled by its own attempt; a revoked rollback can only end as revoked. */
  ghost predicate EntryMove(c: Call, l: nat, e: Entry, e': Entry) {
    && e'.delivery == e.delivery
    && (e.status.Committing? && !Settles(c, l, e) ==> e' == e)
    && (e.status.RollbackRevoked? ==> e'.status.RollbackRevoked? || e'.status.Revoked?)
  }

  ghost predicate Moved(c: Call, w: World, w': World) {
    && (forall id :: id in w.place ==> PlaceMove(w, w', id))
    && (forall l, i :: EntryAt(w.leases, l, i) ==>
          EntryAt(w'.leases, l, i) && EntryMove(c, l, w.leases[l].entries[i], w'.leases[l].entries[i]))
    && w.commits <= w'.commits
    && w.resetGeneration <= w'.resetGeneration
  }

  lemma {:induction false} StaysMoved(c: Call, w: World)
    requires HeldOk(w.leases, w.place)
    ensures Moved(c, w, w)
  {
  }

  lemma {:induction false} FinishMoves(w: World, l: nat)
    requires l < |w.leases|
    ensures FinishIfExhausted(w, l).place == w.place && FinishIfExhausted(w, l).commits == w.commits
    ensures FinishIfExhausted(w, l).resetGeneration == w.resetGeneration
    ensures FinishIfExhausted(w, l).issued == w.issued && FinishIfExhausted(w, l).nextSequence == w.nextSequence
    ensures |FinishIfExhausted(w, l).leases| == |w.leases|
    ensures forall m :: 0 <= m < |w.leases| ==> FinishIfExhausted(w, l).leases[m].entries == w.leases[m].entries
  {
  }

  /** Finishing the lease changes no entry and no place. */
  lemma {:induction false} FinishAfterMove(c: Call, w: World, w1: World, l: nat)
    requires Moved(c, w, w1) && l < |w1.leases|
    ensures Moved(c, w, FinishIfExhausted(w1, l))
  {
    FinishMoves(w1, l);
    var w' := FinishIfExhausted(w1, l);
    forall m, j | EntryAt(w1.leases, m, j) ensures EntryAt(w'.leases, m, j)
        && w'.leases[m].entries[j] == w1.leases[m].entries[j] {
      assert w'.leases[m].entries == w1.leases[m].entries;
    }
    forall id | id in w.place ensures PlaceMove(w, w', id) { assert PlaceMove(w, w1, id); }
  }

  lemma {:induction false} EnqueueMoves(c: Call, w: World, id: string, kind: string, messages: seq<string>)
    requires HeldOk(w.leases, w.place) && w.place.Keys == w.issued.Keys
    ensures Moved(c, w, AfterEnqueue(w, id, kind, messages))
  {
  }

  lemma {:induction false} LeaseMoves(c: Call, w: World, ds: seq<Delivery>)
    requires Inv(w)
    ensures Moved(c, w, AfterLease(w, ds))
  {
    if CanLease(w, ds) {
      var w' := AfterLease(w, ds);
      ClaimedPlaces(w, ds);
      AppendAt(w.leases, Lease(NewEntries(Claimed(w.pending, ds)), true, w.resetGeneration));
      forall id | id in w.place ensures PlaceMove(w, w', id) {
        if w.place[id].Held? { assert LiveAt(w.leases, w.place[id].lease, w.place[id].index); }
      }
    } else {
      StaysMoved(c, w);
    }
  }

  /** An entry moves on before its commit. */
  lemma {:induction false} EntryMoves(c: Call, w: World, l: nat, i: nat, e: Entry)
    requires HeldOk(w.leases, w.place) && EntryAt(w.leases, l, i) && PreCommit(w.leases[l].entries[i].status)
    requires e.delivery == w.leases[l].entries[i].delivery
    ensures Moved(c, w, w.(leases := Rewritten(w.leases, l, w.leases[l].entries[i := e])))
  {
  }

  /** One entry and the place of its delivery change. */
  lemma {:induction false} OneMoves(c: Call, w: World, w2: World, l: nat, i: nat, e: Entry)
    requires HeldOk(w.leases, w.place) && LiveAt(w.leases, l, i)
    requires EntryMove(c, l, w.leases[l].entries[i], e)
    requires w2.leases == Rewritten(w.leases, l, w.leases[l].entries[i := e])
    requires var id := e.delivery.id;
             && id in w2.place && w2.place == w.place[id := w2.place[id]] && !w2.place[id].Held?
             && (w2.place[id].Waiting? ==> e.status.Restored?)
             && (w2.place[id] == Settled(WasCommitted) ==> e.status.Committed?)
    requires w.commits <= w2.commits && w.resetGeneration == w2.resetGeneration
    ensures Moved(c, w, w2)
  {
    forall m, j | EntryAt(w.leases, m, j)
      ensures EntryAt(w2.leases, m, j) && EntryMove(c, m, w.leases[m].entries[j], w2.leases[m].entries[j])
    {
    }
    forall id | id in w.place ensures PlaceMove(w, w2, id) {
      if w.place[id].Held? {
        assert LiveAt(w.leases, w.place[id].lease, w.place[id].index);
        assert EntryAt(w2.leases, w.place[id].lease, w.place[id].index);
      }
    }
  }

  lemma {:induction false} ConcludeMoves(c: Call, w: World, l: nat, i: nat, s: Status)
    requires Inv(w) && LiveAt(w.leases, l, i)
    requires s.Restored? || s.Committed? || s.TerminallyFailed? || s.Revoked?
    requires w.leases[l].entries[i].status.Committing? ==> Settles(c, l, w.leases[l].entries[i])
    requires w.leases[l].entries[i].status.RollbackRevoked? ==> s.Revoked?
    ensures Moved(c, w, Conclude(w, l, i, s))
  {
    var w2 := ConcludedWorld(w, l, i, s);
    OneMoves(c, w, w2, l, i, w.leases[l].entries[i].(status := s));
    FinishAfterMove(c, w, w2, l);
  }

  lemma {:induction false} RollbackMoves(c: Call, w: World, l: nat)
    requires HeldOk(w.leases, w.place) && l < |w.leases|
    ensures Moved(c, w, AfterRollback(w, l))
  {
    var lease := w.leases[l];
    if lease.active {
      var w1 := w.(leases := Rewritten(w.leases, l, MapEntries(lease.entries, RolledBack)));
      assert Moved(c, w, w1);
      FinishAfterMove(c, w, w1, l);
    } else {
      StaysMoved(c, w);
    }
  }

  lemma {:induction false} BulkMoves(c: Call, w: World, l: nat, after: seq<Entry>)
    requires HeldOk(w.leases, w.place) && l < |w.leases| && Weaker(w.leases[l].entries, after)
    requires forall i :: 0 <= i < |after| ==> EntryMove(c, l, w.leases[l].entries[i], after[i])
    ensures Moved(c, w,
        w.(leases := Rewritten(w.leases, l, after), place := SettleHeld(w, l, w.leases[l].entries, after, WasRevoked)))
  {
    var w' := w.(leases := Rewritten(w.leases, l, after), place :=
        SettleHeld(w, l, w.leases[l].entries, after, WasRevoked));
    forall id | id in w.place ensures PlaceMove(w, w', id) {
      if w.place[id].Held? { assert LiveAt(w.leases, w.place[id].lease, w.place[id].index); }
    }
  }

  /** Where the waiting deliveries are after a revoke of the queue. */
  lemma {:induction false} QueueRevoked(w: World, kind: string)
    requires QueueOk(w.pending, w.issued, w.resetGeneration) && WaitingOk(w.pending, w.place, w.issued)
    requires RegistryOk(w.issued, w.nextSequence, w.resetGeneration)
    ensures forall id :: id in w.place && w.place[id].Waiting? ==>
                           (id in Ids(OfKind(w.pending, kind)) <==> w.issued[id].kind == kind)
  {
    var gone := OfKind(w.pending, kind);
    forall id | id in w.place && w.place[id].Waiting? ensures id in Ids(gone) <==> w.issued[id].kind == kind {
      assert w.issued[id] in w.pending && w.issued[id].id == id;
      if w.issued[id].kind == kind { assert w.issued[id] in gone; }
      forall d | d in gone && d.id == id ensures d == w.issued[id] { assert Genuine(w.issued, d); }
    }
  }

  function QueueRevokedWorld(w: World, kind: string): World {
    w.(pending := Filter(w.pending, (d: Delivery) => d.kind != kind),
       place := SettleWaiting(w, Ids(OfKind(w.pending, kind)), WasRevoked))
  }

  /** Waiting deliveries settle, and then something else moves. */
  lemma {:induction false} MovedAfterQueue(c: Call, w: World, w1: World, w2: World)
    requires w1.leases == w.leases && w1.commits == w.commits && w1.resetGeneration == w.resetGeneration
    requires forall id :: id in w.place ==>
               id in w1.place &&
               (w1.place[id] == w.place[id]
                   || (w.place[id].Waiting? && w1.place[id].Settled? && !w1.place[id].how.WasCommitted?))
    requires Moved(c, w1, w2)
    ensures Moved(c, w, w2)
  {
    forall id | id in w.place ensures PlaceMove(w, w2, id) { assert PlaceMove(w1, w2, id); }
  }

  lemma {:induction false} RevokeMoves(c: Call, w: World, kind: string)
    requires Inv(w)
    ensures Moved(c, w, AfterRevoke(w, kind))
  {
    var w1 := QueueRevokedWorld(w, kind);
    assert HeldOk(w1.leases, w1.place);
    if w.activeLease.Some? {
      var l := w.activeLease.value;
      var after := MapEntries(w.leases[l].entries, (e: Entry) => RevokedOf(kind, e));
      assert Weaker(w.leases[l].entries, after) && forall i :: 0 <= i < |after| ==>
          EntryMove(c, l, w.leases[l].entries[i], after[i]) by {
        EachEntryMoves(c, l, w.leases[l].entries, kind, after);
      }
      BulkMoves(c, w1, l, after);
      var w2 := w1.(leases := Rewritten(w.leases, l, after), place :=
          SettleHeld(w1, l, w.leases[l].entries, after, WasRevoked));
      FinishAfterMove(c, w1, w2, l);
      MovedAfterQueue(c, w, w1, FinishIfExhausted(w2, l));
    } else {
      StaysMoved(c, w1);
      MovedAfterQueue(c, w, w1, w1);
    }
  }

  lemma {:induction false} WithdrawMoves(c: Call, w: World, id: string)
    requires Inv(w)
    ensures Moved(c, w, AfterWithdraw(w, id))
  {
    var d := FindPending(w.pending, id);
    StaysMoved(c, w);
    if d.Some? {
      assert w.place[id] == Waiting;
      var w' := AfterWithdraw(w, id);
      forall k | k in w.place ensures PlaceMove(w, w', k) { assert PlaceMove(w, w, k); }
    }
  }

  lemma {:induction false} DiscardedEntriesMove(c: Call, l: nat, entries: seq<Entry>)
    ensures var after := MapEntries(entries, Discarded);
            Weaker(entries, after) && forall i :: 0 <= i < |after| ==> EntryMove(c, l, entries[i], after[i])
  {
  }

  lemma {:induction false} EachEntryMoves(c: Call, l: nat, entries: seq<Entry>, kind: string, after: seq<Entry>)
    requires |after| == |entries| && forall i :: 0 <= i < |after| ==> after[i] == RevokedOf(kind, entries[i])
    ensures Weaker(entries, after) && forall i :: 0 <= i < |after| ==> EntryMove(c, l, entries[i], after[i])
  {
  }

  lemma {:induction false} ResetMoves(c: Call, w: World)
    requires Inv(w)
    ensures Moved(c, w, AfterReset(w))
    ensures AfterReset(w).resetGeneration == w.resetGeneration + 1
  {
    ResetIs(w);
    var w0 := DiscardedLease(w);
    if w.activeLease.Some? {
      var l := w.activeLease.value;
      DiscardedEntriesMove(c, l, w.leases[l].entries);
      BulkMoves(c, w, l, MapEntries(w.leases[l].entries, Discarded));
    } else {
      StaysMoved(c, w);
    }
    DroppedMoves(c, w, w0, Ids(w0.pending));
  }

  /** The queue is dropped and the generation moves on. */
  lemma {:induction false} DroppedMoves(c: Call, w: World, w0: World, gone: set<string>)
    requires Moved(c, w, w0) && Linked(w0)
    ensures Moved(c, w, Generation(w0.(pending := [], place := SettleWaiting(w0, gone, WasDropped))))
  {
    var w' := Generation(w0.(pending := [], place := SettleWaiting(w0, gone, WasDropped)));
    forall m, j | EntryAt(w0.leases, m, j) ensures EntryAt(w'.leases, m, j)
        && w'.leases[m].entries[j] == w0.leases[m].entries[j] {}
    forall id | id in w.place ensures PlaceMove(w, w', id) { assert PlaceMove(w, w0, id); }
  }

  /** Every call, on every handle, moves deliveries and entries only along the protocol. */
  lemma {:induction false} StepMoves(w: World, c: Call)
    requires Inv(w)
    ensures Moved(c, w, Step(w, c))
  {
    if !Callable(w, c) {
      StaysMoved(c, w);
    } else if c.Enqueue? || c.TakeLease? || c.RevokeKind? || c.Withdraw? || c.Reset? {
      InboxStepMoves(w, c);
    } else {
      LeaseStepMoves(w, c);
    }
  }

  lemma {:induction false} InboxStepMoves(w: World, c: Call)
    requires Inv(w) && (c.Enqueue? || c.TakeLease? || c.RevokeKind? || c.Withdraw? || c.Reset?)
    ensures Moved(c, w, Next(w, c))
  {
    match c
    case Enqueue(_, _, _) => EnqueueStep(w, c);
    case TakeLease(_) => LeaseStep(w, c);
    case RevokeKind(_) => RevokeStep(w, c);
    case Withdraw(_) => WithdrawStep(w, c);
    case Reset => ResetStep(w, c);
  }

  lemma {:induction false} EnqueueStep(w: World, c: Call)
    requires Inv(w) && c.Enqueue?
    ensures Moved(c, w, Next(w, c))
  {
    EnqueueMoves(c, w, c.id, c.kind, c.messages);
  }

  lemma {:induction false} LeaseStep(w: World, c: Call)
    requires Inv(w) && c.TakeLease?
    ensures Moved(c, w, Next(w, c))
  {
    LeaseMoves(c, w, c.deliveries);
  }

  lemma {:induction false} RevokeStep(w: World, c: Call)
    requires Inv(w) && c.RevokeKind?
    ensures Moved(c, w, Next(w, c))
  {
    RevokeMoves(c, w, c.kind);
  }

  lemma {:induction false} WithdrawStep(w: World, c: Call)
    requires Inv(w) && c.Withdraw?
    ensures Moved(c, w, Next(w, c))
  {
    WithdrawMoves(c, w, c.id);
  }

  lemma {:induction false} ResetStep(w: World, c: Call)
    requires Inv(w) && c.Reset?
    ensures Moved(c, w, Next(w, c))
  {
    ResetMoves(c, w);
  }

  lemma {:induction false} LeaseStepMoves(w: World, c: Call)
    requires Inv(w) && Callable(w, c) && !(c.Enqueue? || c.TakeLease? || c.RevokeKind? || c.Withdraw? || c.Reset?)
    ensures Moved(c, w, Next(w, c))
  {
    match c
    case Rollback(l) => RollbackMoves(c, w, l);
    case Prepare(l, id, attempt) => PrepareMoves(c, w, l, id, attempt);
    case CompletePreparation(l, id, attempt, o) => CompleteMoves(c, w, l, id, attempt, o);
    case BeginCommit(l, id, attempt) => BeginMoves(c, w, l, id, attempt);
    case SettleCommit(l, id, attempt, o) => SettleCommitMoves(c, w, l, id, attempt, o);
    case SettleRollback(l, id, o) => SettleRollbackMoves(c, w, l, id, o);
  }

  lemma {:induction false} PrepareMoves(c: Call, w: World, l: nat, id: string, attempt: string)
    requires Inv(w) && l < |w.leases|
    ensures Moved(c, w, AfterPrepare(w, l, id, attempt))
  {
    var lease := w.leases[l];
    if lease.active && Has(lease, id, Leased) {
      var i := Find(lease.entries, id).value;
      EntryMoves(c, w, l, i, lease.entries[i].(status := Preparing, attempt := Some(attempt)));
    } else {
      StaysMoved(c, w);
    }
  }

  lemma {:induction false} CompleteMoves(c: Call, w: World, l: nat, id: string, attempt: string, o: PrepareOutcome)
    requires Inv(w) && l < |w.leases|
    ensures Moved(c, w, AfterCompletePreparation(w, l, id, attempt, o))
  {
    var lease := w.leases[l];
    if lease.active && HasAttempt(lease, id, Preparing, attempt) {
      var i := Find(lease.entries, id).value;
      if o.Prepared? { EntryMoves(c, w, l, i, lease.entries[i].(status := Ready)); }
      else { ConcludeMoves(c, w, l, i, if o.RetainedPreparation? then Restored else TerminallyFailed); }
    } else {
      StaysMoved(c, w);
    }
  }

  lemma {:induction false} BeginMoves(c: Call, w: World, l: nat, id: string, attempt: string)
    requires Inv(w) && l < |w.leases|
    ensures Moved(c, w, AfterBeginCommit(w, l, id, attempt))
  {
    var lease := w.leases[l];
    if lease.active && HasAttempt(lease, id, Ready, attempt) {
      var i := Find(lease.entries, id).value;
      EntryMoves(c, w, l, i, lease.entries[i].(status := Committing));
    } else {
      StaysMoved(c, w);
    }
  }

  lemma {:induction false} SettleCommitMoves(c: Call, w: World, l: nat, id: string, attempt: string, o: CommitOutcome)
    requires Inv(w) && l < |w.leases| && c == SettleCommit(l, id, attempt, o)
    ensures Moved(c, w, AfterSettleCommit(w, l, id, attempt, o))
  {
    var lease := w.leases[l];
    if HasAttempt(lease, id, Committing, attempt) {
      var s := match o
        case CommittedOutcome => Committed
        case RetainedCommit => Restored
        case FailedCommit => TerminallyFailed;
      ConcludeMoves(c, w, l, Find(lease.entries, id).value, s);
    } else {
      StaysMoved(c, w);
    }
  }

  lemma {:induction false} SettleRollbackMoves(c: Call, w: World, l: nat, id: string, o: RollbackOutcome)
    requires Inv(w) && l < |w.leases|
    ensures Moved(c, w, AfterSettleRollback(w, l, id, o))
  {
    var lease := w.leases[l];
    if Has(lease, id, RollbackRevoked) {
      ConcludeMoves(c, w, l, Find(lease.entries, id).value, Revoked);
    } else if Has(lease, id, RollingBack) {
      ConcludeMoves(c, w, l, Find(lease.entries, id).value, if o.RetainedRollback? then Restored else TerminallyFailed);
    } else {
      StaysMoved(c, w);
    }
  }

  // ----- The revocation cutoff

  /** The lease gives the entry up to a revoke of its kind. */
  predicate GivesUp(e: Entry, kind: string) {
    e.delivery.kind == kind && (PreCommit(e.status) || e.status.RollingBack?)
  }

  /** What `revoke` returns: pending and leased deliveries of the kind, in admission order. */
  function RevokeReply(w: World, kind: string): seq<Delivery>
    requires Linked(w)
  {
    SortBy(OfKind(w.pending, kind)
                   + (if w.activeLease.Some? && w.leases[w.activeLease.value].active
                      then Deliveries(Filter(w.leases[w.activeLease.value].entries, (e: Entry) => GivesUp(e, kind)))
                          else []), Sequence)
  }

  /** A delivery that can never be pending or committed again. */
  ghost predicate Dead(w: World, id: string) {
    && id in w.place
    && match w.place[id]
       case Waiting => false
       case Settled(how) => !how.WasCommitted?
       case Held(l, i) => LiveAt(w.leases, l, i) && w.leases[l].entries[i].status.RollbackRevoked?
  }

  lemma {:induction false} QueuedIsDead(w: World, kind: string, d: Delivery)
    requires Inv(w) && d in w.pending && d.kind == kind
    ensures Dead(AfterRevoke(w, kind), d.id)
  {
    QueueRevoked(w, kind);
    assert Genuine(w.issued, d) && w.place[d.id] == Waiting;
    var w1 := QueueRevokedWorld(w, kind);
    assert w1.place[d.id] == Settled(WasRevoked);
    if w.activeLease.Some? {
      var l := w.activeLease.value;
      var after := MapEntries(w.leases[l].entries, (e: Entry) => RevokedOf(kind, e));
      FinishMoves(w1.(leases := Rewritten(w.leases, l, after), place :=
          SettleHeld(w1, l, w.leases[l].entries, after, WasRevoked)), l);
    }
  }

  lemma {:induction false} RevokedEntryDead(w: World, l: nat, i: nat, kind: string, after: seq<Entry>)
    requires l < |w.leases| && i < |w.leases[l].entries| == |after|
        && after[i] == RevokedOf(kind, w.leases[l].entries[i])
    requires GivesUp(w.leases[l].entries[i], kind)
    requires w.leases[l].entries[i].delivery.id in w.place && w.place[w.leases[l].entries[i].delivery.id] == Held(l, i)
    ensures Dead(w.(leases := Rewritten(w.leases, l, after), place :=
        SettleHeld(w, l, w.leases[l].entries, after, WasRevoked)),
                 w.leases[l].entries[i].delivery.id)
  {
    assert Rewritten(w.leases, l, after)[l].entries[i] == after[i];
  }

  lemma {:induction false} LeasedIsDead(w: World, kind: string, i: nat)
    requires Inv(w) && w.activeLease.Some? && i < |w.leases[w.activeLease.value].entries|
    requires GivesUp(w.leases[w.activeLease.value].entries[i], kind)
    ensures Dead(AfterRevoke(w, kind), w.leases[w.activeLease.value].entries[i].delivery.id)
  {
    var l := w.activeLease.value;
    var e := w.leases[l].entries[i];
    assert LiveAt(w.leases, l, i);
    assert w.place[e.delivery.id] == Held(l, i);
    var w1 := QueueRevokedWorld(w, kind);
    var after := MapEntries(w.leases[l].entries, (e: Entry) => RevokedOf(kind, e));
    var w2 := w1.(leases := Rewritten(w.leases, l, after), place :=
        SettleHeld(w1, l, w.leases[l].entries, after, WasRevoked));
    assert after[i] == RevokedOf(kind, e);
    FinishMoves(w2, l);
    RevokedEntryDead(w1, l, i, kind, after);
    assert Dead(w2, e.delivery.id);
    assert AfterRevoke(w, kind).leases[l].entries == after;
  }

  lemma {:induction false} RevokedIsDead(w: World, kind: string, d: Delivery)
    requires Inv(w) && d in RevokeReply(w, kind)
    ensures Dead(AfterRevoke(w, kind), d.id)
  {
    var given := if w.activeLease.Some?
        then Filter(w.leases[w.activeLease.value].entries, (e: Entry) => GivesUp(e, kind)) else [];
    SortHas(OfKind(w.pending, kind) + Deliveries(given), Sequence, d);
    if d in OfKind(w.pending, kind) {
      QueuedIsDead(w, kind, d);
    } else {
      assert d in Deliveries(given);
      var i := GivenEntry(w.leases[w.activeLease.value].entries, kind, d);
      LeasedIsDead(w, kind, i);
    }
  }

  /** The entry a delivery that a lease gives up came from. */
  lemma {:induction false} GivenEntry(entries: seq<Entry>, kind: string, d: Delivery) returns (i: nat)
    requires d in Deliveries(Filter(entries, (e: Entry) => GivesUp(e, kind)))
    ensures i < |entries| && entries[i].delivery == d && GivesUp(entries[i], kind)
  {
    var given := Filter(entries, (e: Entry) => GivesUp(e, kind));
    var n :| 0 <= n < |given| && Deliveries(given)[n] == d;
    assert given[n] in given;
    i :| 0 <= i < |entries| && entries[i] == given[n];
  }

  lemma {:induction false} DeadStays(w: World, c: Call, id: string)
    requires Inv(w) && Dead(w, id)
    ensures Dead(Step(w, c), id)
  {
    StepMoves(w, c);
    StepKeepsInv(w, c);
    DeadMoves(c, w, Step(w, c), id);
  }

  lemma {:induction false} DeadMoves(c: Call, w: World, w': World, id: string)
    requires Dead(w, id) && Moved(c, w, w') && HeldOk(w'.leases, w'.place)
    ensures Dead(w', id)
  {
    assert PlaceMove(w, w', id);
    if w.place[id].Held? {
      var l, i := w.place[id].lease, w.place[id].index;
      assert EntryAt(w.leases, l, i);
      assert EntryMove(c, l, w.leases[l].entries[i], w'.leases[l].entries[i]);
      if w'.place[id].Held? { assert LiveAt(w'.leases, l, i); }
    }
  }

  lemma {:induction false} DeadIsOut(w: World, id: string)
    requires Inv(w) && Dead(w, id)
    ensures (forall d :: d in w.pending ==> d.id != id) && id !in w.commits
  {
  }

  /**
   * Revocation cutoff: whatever a revoke returns, even while it rolls back, is never pending and never
   * committed in any continuation.
   */
  lemma {:induction false} RevocationCutoff(w: World, calls: seq<Call>, id: string)
    requires Inv(w) && Dead(w, id)
    ensures Dead(Run(w, calls), id)
    ensures (forall d :: d in Run(w, calls).pending ==> d.id != id) && id !in Run(w, calls).commits
    decreases calls
  {
    if calls == [] {
      DeadIsOut(w, id);
    } else {
      StepKeepsInv(w, calls[0]);
      DeadStays(w, calls[0], id);
      RevocationCutoff(Step(w, calls[0]), calls[1..], id);
    }
  }

  lemma {:induction false} RevokedNeverReturns(w: World, kind: string, d: Delivery, calls: seq<Call>)
    requires Inv(w) && d in RevokeReply(w, kind)
    ensures var after := Run(AfterRevoke(w, kind), calls);
            d !in after.pending && d.id !in after.commits
  {
    RevokedIsDead(w, kind, d);
    RevokeKeeps(w, kind);
    RevocationCutoff(AfterRevoke(w, kind), calls, d.id);
  }

  // ----- The commit cutoff

  /** Once a commit began, no revoke, rollback, reset or other call touches it until its own attempt settles. */
  lemma {:induction false} CommitCutoff(w: World, calls: seq<Call>, l: nat, i: nat)
    requires Inv(w) && EntryAt(w.leases, l, i) && w.leases[l].entries[i].status.Committing?
    requires forall c :: c in calls ==> !Settles(c, l, w.leases[l].entries[i])
    ensures var after := Run(w, calls);
            && EntryAt(after.leases, l, i) && after.leases[l].entries[i] == w.leases[l].entries[i]
            && w.leases[l].entries[i].delivery !in after.pending
            && w.leases[l].entries[i].delivery.id !in after.commits
    decreases calls
  {
    var d := w.leases[l].entries[i].delivery;
    if calls == [] {
      assert LiveAt(w.leases, l, i);
      assert w.place[d.id] == Held(l, i);
    } else {
      assert calls[0] in calls;
      StepKeepsInv(w, calls[0]);
      StepMoves(w, calls[0]);
      assert EntryMove(calls[0], l, w.leases[l].entries[i], Step(w, calls[0]).leases[l].entries[i]);
      CommitCutoff(Step(w, calls[0]), calls[1..], l, i);
    }
  }

  lemma {:induction false} GenerationGrows(w: World, calls: seq<Call>)
    requires Inv(w)
    ensures w.resetGeneration <= Run(w, calls).resetGeneration
    decreases calls
  {
    if calls != [] {
      StepKeepsInv(w, calls[0]);
      StepMoves(w, calls[0]);
      GenerationGrows(Step(w, calls[0]), calls[1..]);
    }
  }

  /** After a reset nothing admitted before it is ever pending again. */
  lemma {:induction false} ResetCutoff(w: World, calls: seq<Call>)
    requires Inv(w)
    ensures forall d :: d in Run(AfterReset(w), calls).pending ==> d.epoch > w.resetGeneration
  {
    ResetKeeps(w);
    ResetMoves(Reset, w);
    RunKeepsInv(AfterReset(w), calls);
    GenerationGrows(AfterReset(w), calls);
  }

  // ----- Selecting and leasing

  datatype QueueMode = All | OneAtATime

  function Select(pending: seq<Delivery>, kind: string, mode: QueueMode): seq<Delivery> {
    var matching := OfKind(pending, kind);
    if mode.All? || |matching| == 0 then matching else matching[..1]
  }

  /** The concatenation of the selections of several kinds. */
  function SelectAll(pending: seq<Delivery>, picks: seq<(string, QueueMode)>): seq<Delivery> {
    if picks == [] then [] else Select(pending, picks[0].0, picks[0].1) + SelectAll(pending, picks[1..])
  }

  lemma {:induction false} SelectMembers(pending: seq<Delivery>, kind: string, mode: QueueMode)
    ensures Select(pending, kind, mode) <= OfKind(pending, kind)
    ensures forall d :: d in Select(pending, kind, mode) ==> d in pending && d.kind == kind
  {
  }

  lemma {:induction false} SelectAllMembers(pending: seq<Delivery>, picks: seq<(string, QueueMode)>)
    ensures forall d :: d in SelectAll(pending, picks) ==>
                          d in pending && exists i :: 0 <= i < |picks| && picks[i].0 == d.kind
  {
    if picks != [] {
      SelectMembers(pending, picks[0].0, picks[0].1);
      SelectAllMembers(pending, picks[1..]);
      forall d | d in SelectAll(pending, picks)
        ensures d in pending && exists i :: 0 <= i < |picks| && picks[i].0 == d.kind
      {
        if d in Select(pending, picks[0].0, picks[0].1) {
          assert picks[0].0 == d.kind;
        } else {
          assert d in SelectAll(pending, picks[1..]);
          var i :| 0 <= i < |picks[1..]| && picks[1..][i].0 == d.kind;
          assert picks[i + 1].0 == d.kind;
        }
      }
    }
  }

  /** Of each kind, the concatenation holds exactly that kind's selection. */
  lemma {:induction false} SelectAllOfKind(pending: seq<Delivery>, picks: seq<(string, QueueMode)>, n: nat)
    requires forall i, j :: 0 <= i < j < |picks| ==> picks[i].0 != picks[j].0
    requires n < |picks|
    ensures OfKind(SelectAll(pending, picks), picks[n].0) == Select(pending, picks[n].0, picks[n].1)
  {
    var kind := picks[n].0;
    var p := (d: Delivery) => d.kind == kind;
    var first, rest := Select(pending, picks[0].0, picks[0].1), SelectAll(pending, picks[1..]);
    FilterConcat(first, rest, p);
    SelectMembers(pending, picks[0].0, picks[0].1);
    if n == 0 {
      SelectAllMembers(pending, picks[1..]);
      forall d | d in rest ensures !p(d) {
        var i :| 0 <= i < |picks[1..]| && picks[1..][i].0 == d.kind;
        assert picks[i + 1].0 != picks[0].0;
      }
      FilterNone(rest, p);
      FilterAll(first, p);
    } else {
      FilterNone(first, p);
      SelectAllOfKind(pending, picks[1..], n - 1);
    }
  }

  lemma {:induction false} SelectAllDistinct(w: World, picks: seq<(string, QueueMode)>)
    requires Inv(w)
    requires forall i, j :: 0 <= i < j < |picks| ==> picks[i].0 != picks[j].0
    ensures forall i, j :: 0 <= i < j < |SelectAll(w.pending, picks)| ==>
                             SelectAll(w.pending, picks)[i].id != SelectAll(w.pending, picks)[j].id
    decreases |picks|
  {
    if picks != [] {
      var kind := picks[0].0;
      var first, rest := Select(w.pending, kind, picks[0].1), SelectAll(w.pending, picks[1..]);
      SelectMembers(w.pending, kind, picks[0].1);
      FilterAscending(w.pending, (d: Delivery) => d.kind == kind, Sequence);
      GenuineDistinct(w.issued, first);
      SelectAllDistinct(w, picks[1..]);
      SelectAllMembers(w.pending, picks[1..]);
      forall a, b | a in first && b in rest ensures a.id != b.id {
        var i :| 0 <= i < |picks[1..]| && picks[1..][i].0 == b.kind;
        assert picks[i + 1].0 != kind;
        assert Genuine(w.issued, a) && Genuine(w.issued, b);
      }
      forall i, j | 0 <= i < j < |first + rest| ensures (first + rest)[i].id != (first + rest)[j].id {
        if i < |first| <= j {
          assert (first + rest)[i] in first && (first + rest)[j] in rest;
        }
      }
    }
  }

  /** Leasing selections of distinct kinds never fails, and claims exactly them in admission order. */
  lemma {:induction false} LeaseNeverFails(w: World, picks: seq<(string, QueueMode)>)
    requires Inv(w) && w.activeLease.None?
    requires forall i, j :: 0 <= i < j < |picks| ==> picks[i].0 != picks[j].0
    ensures var ds := SelectAll(w.pending, picks);
            && CanLease(w, ds)
            && Ascending(Claimed(w.pending, ds), Sequence)
            && (forall d :: d in Claimed(w.pending, ds) <==> d in ds)
  {
    var ds := SelectAll(w.pending, picks);
    SelectAllMembers(w.pending, picks);
    SelectAllDistinct(w, picks);
    forall d | d in ds ensures OfKind(ds, d.kind) <= OfKind(w.pending, d.kind) {
      var n :| 0 <= n < |picks| && picks[n].0 == d.kind;
      SelectAllOfKind(w.pending, picks, n);
      SelectMembers(w.pending, d.kind, picks[n].1);
    }
    FilterAscending(w.pending, (d: Delivery) => d in ds, Sequence);
  }

  // ----- Giving back

  /** A call that commits, fails, revokes, withdraws and resets nothing. */
  predicate Giving(c: Call) {
    match c
    case CompletePreparation(_, _, _, o) => !o.FailedPreparation?
    case SettleCommit(_, _, _, o) => o.RetainedCommit?
    case SettleRollback(_, _, o) => o.RetainedRollback?
    case RevokeKind(_) => false
    case Withdraw(_) => false
    case Reset => false
    case _ => true
  }

  function Enqueues(calls: seq<Call>): seq<Call> {
    Filter(calls, (c: Call) => c.Enqueue?)
  }

  /** Deliveries of the current epoch that are in the queue or in a lease and may come back. */
  ghost predicate Outstanding(w: World, id: string) {
    id in w.place && id in w.issued && !w.place[id].Settled? && w.issued[id].epoch == w.resetGeneration
  }

  /** The two inboxes owe the same deliveries. */
  ghost predicate OwesSame(w: World, v: World) {
    && w.issued == v.issued && w.nextSequence == v.nextSequence && w.resetGeneration == v.resetGeneration
    && forall id :: id in w.issued ==> (Outstanding(w, id) <==> Outstanding(v, id))
  }

  /** No entry is past a revoke, which a settled rollback would turn into a loss. */
  ghost predicate NoneRevoked(leases: seq<Lease>) {
    forall l, i :: EntryAt(leases, l, i) ==> !leases[l].entries[i].status.RollbackRevoked?
  }

  /** What a giving call other than an enqueue does. */
  ghost predicate Gave(w: World, w': World) {
    OwesSame(w, w') && NoneRevoked(w'.leases)
  }

  lemma {:induction false} FinishAfterGiving(w: World, w1: World, l: nat)
    requires Gave(w, w1) && l < |w1.leases|
    ensures Gave(w, FinishIfExhausted(w1, l))
  {
    FinishMoves(w1, l);
    var w' := FinishIfExhausted(w1, l);
    forall m, j | EntryAt(w'.leases, m, j) ensures !w'.leases[m].entries[j].status.RollbackRevoked? {
      assert w'.leases[m].entries == w1.leases[m].entries;
      assert EntryAt(w1.leases, m, j);
    }
    forall id | id in w.issued ensures Outstanding(w, id) <==> Outstanding(w', id) {
      assert Outstanding(w, id) <==> Outstanding(w1, id);
    }
  }

  lemma {:induction false} EntryGives(w: World, l: nat, i: nat, e: Entry)
    requires NoneRevoked(w.leases) && EntryAt(w.leases, l, i) && !e.status.RollbackRevoked?
    ensures Gave(w, w.(leases := Rewritten(w.leases, l, w.leases[l].entries[i := e])))
  {
    var leases' := Rewritten(w.leases, l, w.leases[l].entries[i := e]);
    forall m, j | EntryAt(leases', m, j) ensures !leases'[m].entries[j].status.RollbackRevoked? {
      assert EntryAt(w.leases, m, j);
    }
  }

  /** A restored delivery of the current epoch is owed as before; an older one was not owed. */
  lemma {:induction false} RestoreGives(w: World, l: nat, i: nat)
    requires Inv(w) && NoneRevoked(w.leases) && LiveAt(w.leases, l, i)
    ensures Gave(w, Conclude(w, l, i, Restored))
  {
    var d := w.leases[l].entries[i].delivery;
    assert EntryAt(w.leases, l, i) && Genuine(w.issued, d);
    assert w.place[d.id] == Held(l, i);
    EntryGives(w, l, i, w.leases[l].entries[i].(status := Restored));
    var w2 := ConcludedWorld(w, l, i, Restored);
    assert w2.leases == Rewritten(w.leases, l, w.leases[l].entries[i := w.leases[l].entries[i].(status := Restored)]);
    assert w2.place == w.place[d.id := w2.place[d.id]];
    assert Gave(w, w2);
    FinishAfterGiving(w, w2, l);
  }

  lemma {:induction false} RollbackGives(w: World, l: nat)
    requires NoneRevoked(w.leases) && l < |w.leases|
    ensures Gave(w, AfterRollback(w, l))
  {
    var lease := w.leases[l];
    if lease.active {
      var w1 := w.(leases := Rewritten(w.leases, l, MapEntries(lease.entries, RolledBack)));
      forall m, j | EntryAt(w1.leases, m, j) ensures !w1.leases[m].entries[j].status.RollbackRevoked? {
        assert EntryAt(w.leases, m, j);
      }
      FinishAfterGiving(w, w1, l);
    }
  }

  lemma {:induction false} LeaseGives(w: World, ds: seq<Delivery>)
    requires Inv(w) && NoneRevoked(w.leases)
    ensures Gave(w, AfterLease(w, ds))
  {
    if CanLease(w, ds) {
      var w' := AfterLease(w, ds);
      ClaimedPlaces(w, ds);
      forall m, j | EntryAt(w'.leases, m, j) ensures !w'.leases[m].entries[j].status.RollbackRevoked? {
        if m < |w.leases| { assert EntryAt(w.leases, m, j); }
      }
    }
  }

  lemma {:induction false} GivingKeeps(w: World, c: Call)
    requires Inv(w) && NoneRevoked(w.leases) && Giving(c) && !c.Enqueue?
    ensures Gave(w, Step(w, c))
  {
    if Callable(w, c) {
      match c
      case TakeLease(ds) => LeaseGives(w, ds);
      case Rollback(l) => RollbackGives(w, l);
      case Prepare(l, id, attempt) =>
        var lease := w.leases[l];
        if lease.active && Has(lease, id, Leased) {
          var i := Find(lease.entries, id).value;
          EntryGives(w, l, i, lease.entries[i].(status := Preparing, attempt := Some(attempt)));
        }
      case CompletePreparation(l, id, attempt, o) => CompleteGives(w, l, id, attempt, o);
      case BeginCommit(l, id, attempt) =>
        var lease := w.leases[l];
        if lease.active && HasAttempt(lease, id, Ready, attempt) {
          var i := Find(lease.entries, id).value;
          EntryGives(w, l, i, lease.entries[i].(status := Committing));
        }
      case SettleCommit(l, id, attempt, o) =>
        if HasAttempt(w.leases[l], id, Committing, attempt) { RestoreGives(w, l, Find(w.leases[l].entries, id).value); }
      case SettleRollback(l, id, o) => SettleRollbackGives(w, l, id);
      case _ =>
    }
  }

  lemma {:induction false} CompleteGives(w: World, l: nat, id: string, attempt: string, o: PrepareOutcome)
    requires Inv(w) && NoneRevoked(w.leases) && l < |w.leases| && !o.FailedPreparation?
    ensures Gave(w, AfterCompletePreparation(w, l, id, attempt, o))
  {
    var lease := w.leases[l];
    if lease.active && HasAttempt(lease, id, Preparing, attempt) {
      var i := Find(lease.entries, id).value;
      if o.Prepared? { EntryGives(w, l, i, lease.entries[i].(status := Ready)); }
      else { RestoreGives(w, l, i); }
    }
  }

  lemma {:induction false} SettleRollbackGives(w: World, l: nat, id: string)
    requires Inv(w) && NoneRevoked(w.leases) && l < |w.leases|
    ensures Gave(w, AfterSettleRollback(w, l, id, RetainedRollback))
  {
    var i := Find(w.leases[l].entries, id);
    if i.Some? { assert EntryAt(w.leases, l, i.value); }
    if Has(w.leases[l], id, RollingBack) { RestoreGives(w, l, i.value); }
  }

  lemma {:induction false} EnqueueOwes(w: World, v: World, c: Call)
    requires Linked(w) && Linked(v) && OwesSame(w, v) && c.Enqueue?
    ensures OwesSame(Step(w, c), Step(v, c)) && Step(v, c).activeLease == v.activeLease
  {
    var w', v' := Step(w, c), Step(v, c);
    EnqueuedPlaces(w, c);
    EnqueuedPlaces(v, c);
    forall id | id in w'.issued ensures Outstanding(w', id) <==> Outstanding(v', id) {
      if id in w.issued {
        OutstandingStays(w, c, id);
        OutstandingStays(v, c, id);
      }
    }
  }

  /** What an enqueue changes: a fresh id waits, and nothing else moves. */
  lemma {:induction false} EnqueuedPlaces(w: World, c: Call)
    requires Linked(w) && c.Enqueue?
    ensures var w' := Step(w, c);
            && w'.leases == w.leases && w'.resetGeneration == w.resetGeneration && w'.activeLease == w.activeLease
            && w'.issued.Keys == w.issued.Keys + {c.id}
            && w'.place == if c.id in w.issued then w.place else w.place[c.id := Waiting]
  {
  }

  lemma {:induction false} OutstandingStays(w: World, c: Call, id: string)
    requires Linked(w) && c.Enqueue? && id in w.issued
    ensures Outstanding(Step(w, c), id) <==> Outstanding(w, id)
  {
    EnqueuedPlaces(w, c);
  }

  lemma {:induction false} GivingRun(w: World, v: World, calls: seq<Call>)
    requires Inv(w) && Inv(v) && NoneRevoked(w.leases) && OwesSame(w, v) && v.activeLease.None?
    requires forall c :: c in calls ==> Giving(c)
    ensures Inv(Run(w, calls)) && Inv(Run(v, Enqueues(calls)))
    ensures OwesSame(Run(w, calls), Run(v, Enqueues(calls))) && Run(v, Enqueues(calls)).activeLease.None?
    decreases calls
  {
    if calls != [] {
      var c := calls[0];
      assert c in calls;
      StepKeepsInv(w, c);
      StepKeepsInv(v, c);
      if c.Enqueue? {
        EnqueueOwes(w, v, c);
        GivingRun(Step(w, c), Step(v, c), calls[1..]);
        assert Enqueues(calls) == [c] + Enqueues(calls[1..]);
      } else {
        GivingKeeps(w, c);
        GivingRun(Step(w, c), v, calls[1..]);
      }
    }
  }

  /** A queue in admission order is determined by what is in it. */
  lemma {:induction false} AscendingUnique(s: seq<Delivery>, t: seq<Delivery>)
    requires Ascending(s, Sequence) && Ascending(t, Sequence)
    requires forall d :: d in s <==> d in t
    ensures s == t
  {
    if t != [] { assert t[0] in t; }
    if s != [] {
      assert s[0] in s;
      assert s[0] == t[0];
      forall d | d in s[1..] ensures d in t[1..] {
        var i :| 0 <= i < |s[1..]| && s[1..][i] == d;
        assert d == s[i + 1] && d in s;
        var j :| 0 <= j < |t| && t[j] == d;
        assert t[j] == t[1..][j - 1];
      }
      forall d | d in t[1..] ensures d in s[1..] {
        var i :| 0 <= i < |t[1..]| && t[1..][i] == d;
        assert d == t[i + 1] && d in t;
        var j :| 0 <= j < |s| && s[j] == d;
        assert s[j] == s[1..][j - 1];
      }
      AscendingUnique(s[1..], t[1..]);
    }
  }

  lemma {:induction false} OutstandingIsPending(w: World)
    requires Inv(w) && w.activeLease.None?
    ensures forall id :: id in w.issued ==> (Outstanding(w, id) <==> w.issued[id] in w.pending)
  {
    forall id | id in w.issued ensures Outstanding(w, id) <==> w.issued[id] in w.pending {
      if w.place[id].Held? {
        var l, i := w.place[id].lease, w.place[id].index;
        assert LiveAt(w.leases, l, i) && EntryAt(w.leases, l, i);
        assert w.leases[l].generation < w.resetGeneration;
      }
      if w.issued[id] in w.pending { assert w.place[w.issued[id].id] == Waiting; }
    }
  }

  /**
   * Lease and give back: however many leases were taken, prepared, begun and rolled back in between, and
   * in whatever order they were given back, once no lease is out the queue is the one of an inbox that
   * only saw the enqueues, when nothing was committed, failed, revoked, withdrawn or reset meanwhile.
   */
  lemma {:induction false} LeaseAndGiveBack(w: World, calls: seq<Call>)
    requires Inv(w) && NoneRevoked(w.leases) && w.activeLease.None?
    requires forall c :: c in calls ==> Giving(c)
    requires Run(w, calls).activeLease.None?
    ensures Run(w, calls).pending == Run(w, Enqueues(calls)).pending
  {
    GivingRun(w, w, calls);
    var a, b := Run(w, calls), Run(w, Enqueues(calls));
    OutstandingIsPending(a);
    OutstandingIsPending(b);
    forall d | d in a.pending ensures d in b.pending { assert Genuine(a.issued, d); }
    forall d | d in b.pending ensures d in a.pending { assert Genuine(b.issued, d); }
    AscendingUnique(a.pending, b.pending);
  }
}
