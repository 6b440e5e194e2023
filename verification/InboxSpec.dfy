/**
 * The delivery inbox and its leases (packages/agent/src/delivery-inbox.ts) as steps over one value: the
 * inbox, every lease handle ever issued, and a record of where each delivery is.
 */
module InboxSpec {
  import opened Prelude

  // ----- Data model

  /**
   * A delivery object. `object` is its identity: a copy with the same content is another object, so two
   * deliveries are equal here exactly when they are one object in the program.
   */
  datatype Delivery = Delivery(object: nat, id: string, kind: string, messages: seq<string>, sequence: nat, epoch: nat)

  datatype Status =
    | Leased | Preparing | Ready | Committing | Committed
    | RollingBack | RollbackRevoked | Restored | Revoked | TerminallyFailed

  datatype Entry = Entry(delivery: Delivery, status: Status, attempt: Option<string>)

  /** A lease handle; `generation` is the reset generation its restore callback captured. */
  datatype Lease = Lease(entries: seq<Entry>, active: bool, generation: nat)

  datatype Settlement = WasCommitted | WasRevoked | WasWithdrawn | WasFailed | WasDropped
  datatype Place = Waiting | Held(lease: nat, index: nat) | Settled(how: Settlement)

  /** `place` and `commits` only record history: no operation reads them. */
  datatype World = World(
    pending: seq<Delivery>,
    leases: seq<Lease>,
    activeLease: Option<nat>,
    nextSequence: nat,
    resetGeneration: nat,
    issued: map<string, Delivery>,
    place: map<string, Place>,
    commits: seq<string>)

  const EMPTY := World([], [], None, 0, 0, map[], map[], [])

  predicate PreCommit(s: Status) {
    s.Leased? || s.Preparing? || s.Ready?
  }

  /** The lease still answers for the delivery. */
  predicate Live(s: Status) {
    PreCommit(s) || s.Committing? || s.RollingBack? || s.RollbackRevoked?
  }

  /** Deliveries are kept in the order they were admitted in. */
  function Sequence(d: Delivery): int { d.sequence }

  // ----- Lease entries

  /** `entries.find`: the first entry of the delivery. */
  function Find(entries: seq<Entry>, id: string): (r: Option<nat>)
    ensures r.Some? ==> r.value < |entries| && entries[r.value].delivery.id == id
    ensures r.None? ==> forall i :: 0 <= i < |entries| ==> entries[i].delivery.id != id
  {
    if entries == [] then None
    else if entries[0].delivery.id == id then Some(0)
    else
      var r := Find(entries[1..], id);
      if r.None? then None else Some(r.value + 1)
  }

  /** The status the entry of a delivery has in a lease. */
  predicate Has(lease: Lease, id: string, s: Status) {
    var i := Find(lease.entries, id);
    i.Some? && lease.entries[i.value].status == s
  }

  function WithStatus(w: World, l: nat, i: nat, s: Status): World
    requires l < |w.leases| && i < |w.leases[l].entries|
  {
    var lease := w.leases[l];
    w.(leases := w.leases[l := lease.(entries := lease.entries[i := lease.entries[i].(status := s)])])
  }

  function Settle(w: World, id: string, how: Settlement): World {
    w.(place := w.place[id := Settled(how)])
  }

  /** The restore callback of a lease of an older generation drops the delivery. */
  function RestoreSettlement(w: World, generation: nat, d: Delivery): World {
    if w.resetGeneration != generation then Settle(w, d.id, WasDropped)
    else w.(pending := SortBy([d] + w.pending, Sequence), place := w.place[d.id := Waiting])
  }

  predicate Exhausted(entries: seq<Entry>) {
    forall e :: e in entries ==> !Live(e.status)
  }

  function FinishLease(w: World, l: nat): World {
    if w.activeLease != Some(l) then w
    else w.(pending := SortBy(w.pending, Sequence), activeLease := None)
  }

  function FinishIfExhausted(w: World, l: nat): World
    requires l < |w.leases|
  {
    if !w.leases[l].active || !Exhausted(w.leases[l].entries) then w
    else FinishLease(w.(leases := w.leases[l := w.leases[l].(active := false)]), l)
  }

  /** The entry leaves the lease for good, or goes back to the inbox. */
  function Conclude(w: World, l: nat, i: nat, s: Status): World
    requires l < |w.leases| && i < |w.leases[l].entries|
    requires s.Restored? || s.Committed? || s.TerminallyFailed? || s.Revoked?
  {
    var d := w.leases[l].entries[i].delivery;
    var w1 := WithStatus(w, l, i, s);
    var w2 := match s
      case Restored => RestoreSettlement(w1, w.leases[l].generation, d)
      case Committed => Settle(w1, d.id, WasCommitted).(commits := w.commits + [d.id])
      case Revoked => Settle(w1, d.id, WasRevoked)
      case _ => Settle(w1, d.id, WasFailed);
    FinishIfExhausted(w2, l)
  }

  function RolledBack(e: Entry): Entry {
    if PreCommit(e.status) then e.(status := RollingBack) else e
  }

  function Discarded(e: Entry): Entry {
    if e.status.Committing? || e.status.Committed? then e else e.(status := Revoked)
  }

  function RevokedOf(kind: string, e: Entry): Entry {
    if e.delivery.kind != kind then e
    else if PreCommit(e.status) then e.(status := Revoked)
    else if e.status.RollingBack? then e.(status := RollbackRevoked)
    else e
  }

  function MapEntries(entries: seq<Entry>, f: Entry -> Entry): (r: seq<Entry>)
    ensures |r| == |entries|
    ensures forall i :: 0 <= i < |r| ==> r[i] == f(entries[i])
  {
    if entries == [] then [] else [f(entries[0])] + MapEntries(entries[1..], f)
  }

  function Deliveries(entries: seq<Entry>): (r: seq<Delivery>)
    ensures |r| == |entries|
    ensures forall i :: 0 <= i < |r| ==> r[i] == entries[i].delivery
  {
    if entries == [] then [] else [entries[0].delivery] + Deliveries(entries[1..])
  }

  // ----- Calls

  datatype PrepareOutcome = Prepared | RetainedPreparation | FailedPreparation
  datatype CommitOutcome = CommittedOutcome | RetainedCommit | FailedCommit
  datatype RollbackOutcome = RetainedRollback | FailedRollback

  /** Every call a client of the inbox can make; `l` names a lease handle, stale ones included. */
  datatype Call =
    | Enqueue(id: string, kind: string, messages: seq<string>)
    | TakeLease(deliveries: seq<Delivery>)
    | Prepare(l: nat, id: string, attempt: string)
    | CompletePreparation(l: nat, id: string, attempt: string, prepared: PrepareOutcome)
    | BeginCommit(l: nat, id: string, attempt: string)
    | SettleCommit(l: nat, id: string, attempt: string, outcome: CommitOutcome)
    | Rollback(l: nat)
    | SettleRollback(l: nat, id: string, settled: RollbackOutcome)
    | RevokeKind(kind: string)
    | Withdraw(id: string)
    | Reset

  function AfterEnqueue(w: World, id: string, kind: string, messages: seq<string>): World {
    if id in w.issued then w else
    var d := Delivery(w.nextSequence, id, kind, messages, w.nextSequence, w.resetGeneration);
    w.(pending := w.pending + [d], nextSequence := w.nextSequence + 1,
       issued := w.issued[id := d], place := w.place[id := Waiting])
  }

  function OfKind(s: seq<Delivery>, kind: string): seq<Delivery> {
    Filter(s, (d: Delivery) => d.kind == kind)
  }

  /** A selection may be leased: distinct pending deliveries that form a prefix of each kind's queue. */
  ghost predicate ValidSelection(pending: seq<Delivery>, ds: seq<Delivery>) {
    && (forall i, j :: 0 <= i < j < |ds| ==> ds[i].id != ds[j].id)
    && (forall d :: d in ds ==> d in pending)
    && (forall d :: d in ds ==> OfKind(ds, d.kind) <= OfKind(pending, d.kind))
  }

  ghost predicate CanLease(w: World, ds: seq<Delivery>) {
    w.activeLease.None? && ValidSelection(w.pending, ds)
  }

  function Claimed(pending: seq<Delivery>, ds: seq<Delivery>): seq<Delivery> {
    Filter(pending, (d: Delivery) => d in ds)
  }

  function Unclaimed(pending: seq<Delivery>, ds: seq<Delivery>): seq<Delivery> {
    Filter(pending, (d: Delivery) => d !in ds)
  }

  function NewEntries(ds: seq<Delivery>): (r: seq<Entry>)
    ensures |r| == |ds|
    ensures forall i :: 0 <= i < |r| ==> r[i] == Entry(ds[i], Leased, None)
  {
    if ds == [] then [] else [Entry(ds[0], Leased, None)] + NewEntries(ds[1..])
  }

  /** Where claimed deliveries are held: by the new lease, at their index. */
  function PlaceClaimed(place: map<string, Place>, l: nat, ds: seq<Delivery>): map<string, Place>
    decreases ds
  {
    if ds == [] then place else PlaceClaimed(place, l, ds[..|ds| - 1])[ds[|ds| - 1].id := Held(l, |ds| - 1)]
  }

  ghost function AfterLease(w: World, ds: seq<Delivery>): World {
    if !CanLease(w, ds) then w else
    var claimed := Claimed(w.pending, ds);
    w.(pending := Unclaimed(w.pending, ds),
       leases := w.leases + [Lease(NewEntries(claimed), true, w.resetGeneration)],
       activeLease := Some(|w.leases|),
       place := PlaceClaimed(w.place, |w.leases|, claimed))
  }

  function AfterPrepare(w: World, l: nat, id: string, attempt: string): World
    requires l < |w.leases|
  {
    var lease := w.leases[l];
    if !lease.active || !Has(lease, id, Leased) then w else
    var i := Find(lease.entries, id).value;
    w.(leases :=
        w.leases[l :=
        lease.(entries := lease.entries[i := lease.entries[i].(status := Preparing, attempt := Some(attempt))])])
  }

  /** The entry of the delivery is in this status under this very attempt. */
  predicate HasAttempt(lease: Lease, id: string, s: Status, attempt: string) {
    Has(lease, id, s) && lease.entries[Find(lease.entries, id).value].attempt == Some(attempt)
  }

  function AfterCompletePreparation(w: World, l: nat, id: string, attempt: string, o: PrepareOutcome): World
    requires l < |w.leases|
  {
    var lease := w.leases[l];
    if !lease.active || !HasAttempt(lease, id, Preparing, attempt) then w else
    var i := Find(lease.entries, id).value;
    match o
    case Prepared => WithStatus(w, l, i, Ready)
    case RetainedPreparation => Conclude(w, l, i, Restored)
    case FailedPreparation => Conclude(w, l, i, TerminallyFailed)
  }

  function AfterBeginCommit(w: World, l: nat, id: string, attempt: string): World
    requires l < |w.leases|
  {
    var lease := w.leases[l];
    if !lease.active || !HasAttempt(lease, id, Ready, attempt) then w
    else WithStatus(w, l, Find(lease.entries, id).value, Committing)
  }

  function AfterSettleCommit(w: World, l: nat, id: string, attempt: string, o: CommitOutcome): World
    requires l < |w.leases|
  {
    var lease := w.leases[l];
    if !HasAttempt(lease, id, Committing, attempt) then w else
    Conclude(w, l, Find(lease.entries, id).value,
             match o
               case CommittedOutcome => Committed
               case RetainedCommit => Restored
               case FailedCommit => TerminallyFailed)
  }

  function AfterRollback(w: World, l: nat): World
    requires l < |w.leases|
  {
    var lease := w.leases[l];
    if !lease.active then w else
    FinishIfExhausted(w.(leases := w.leases[l := lease.(entries := MapEntries(lease.entries, RolledBack))]), l)
  }

  function AfterSettleRollback(w: World, l: nat, id: string, o: RollbackOutcome): World
    requires l < |w.leases|
  {
    var lease := w.leases[l];
    if Has(lease, id, RollbackRevoked) then Conclude(w, l, Find(lease.entries, id).value, Revoked)
    else if !Has(lease, id, RollingBack) then w
    else Conclude(w, l, Find(lease.entries, id).value,
                  match o case RetainedRollback => Restored case FailedRollback => TerminallyFailed)
  }

  /** Deliveries of the active lease that a bulk operation settled. */
  function SettleHeld(w: World, l: nat, before: seq<Entry>, after: seq<Entry>, how: Settlement): map<string, Place>
    requires |before| == |after|
  {
    map id | id in w.place ::
      var p := w.place[id];
      if p.Held? && p.lease == l && p.index < |before| && Live(before[p.index].status) && !Live(after[p.index].status)
      then Settled(how) else p
  }

  function SettleWaiting(w: World, gone: set<string>, how: Settlement): map<string, Place> {
    map id | id in w.place :: if w.place[id].Waiting? && id in gone then Settled(how) else w.place[id]
  }

  function Ids(s: seq<Delivery>): set<string> {
    set d | d in s :: d.id
  }

  /** `InboxDeliveryLease.revoke` */
  function LeaseRevoke(w: World, l: nat, kind: string): World
    requires l < |w.leases|
  {
    var lease := w.leases[l];
    if !lease.active then w else
    var after := MapEntries(lease.entries, (e: Entry) => RevokedOf(kind, e));
    FinishIfExhausted(w.(leases := w.leases[l := lease.(entries := after)],
                         place := SettleHeld(w, l, lease.entries, after, WasRevoked)), l)
  }

  function AfterRevoke(w: World, kind: string): World
    requires w.activeLease.Some? ==> w.activeLease.value < |w.leases|
  {
    var gone := OfKind(w.pending, kind);
    var w1 := w.(pending := Filter(w.pending, (d: Delivery) => d.kind != kind),
                 place := SettleWaiting(w, Ids(gone), WasRevoked));
    if w.activeLease.None? then w1 else LeaseRevoke(w1, w.activeLease.value, kind)
  }

  function FindPending(s: seq<Delivery>, id: string): (r: Option<Delivery>)
    ensures r.Some? ==> r.value in s && r.value.id == id
    ensures r.None? ==> forall d :: d in s ==> d.id != id
  {
    if s == [] then None else if s[0].id == id then Some(s[0]) else FindPending(s[1..], id)
  }

  function AfterWithdraw(w: World, id: string): World {
    var d := FindPending(w.pending, id);
    if d.None? then w else
    Settle(w.(pending := Filter(w.pending, (x: Delivery) => x != d.value)), id, WasWithdrawn)
  }

  /** `InboxDeliveryLease.discard` */
  function LeaseDiscard(w: World, l: nat): World
    requires l < |w.leases|
  {
    var lease := w.leases[l];
    if !lease.active then w else
    var after := MapEntries(lease.entries, Discarded);
    FinishLease(w.(leases := w.leases[l := lease.(entries := after, active := false)],
                   place := SettleHeld(w, l, lease.entries, after, WasRevoked)), l)
  }

  function AfterReset(w: World): World
    requires w.activeLease.Some? ==> w.activeLease.value < |w.leases|
  {
    var w1 := w.(resetGeneration := w.resetGeneration + 1);
    var w2 := if w1.activeLease.None? then w1 else LeaseDiscard(w1, w1.activeLease.value);
    w2.(pending := [], activeLease := None, place := SettleWaiting(w2, Ids(w2.pending), WasDropped))
  }

  /** A call can be made: the lease handle it names has been issued. */
  predicate Callable(w: World, c: Call) {
    match c
    case Prepare(l, _, _) => l < |w.leases|
    case CompletePreparation(l, _, _, _) => l < |w.leases|
    case BeginCommit(l, _, _) => l < |w.leases|
    case SettleCommit(l, _, _, _) => l < |w.leases|
    case Rollback(l) => l < |w.leases|
    case SettleRollback(l, _, _) => l < |w.leases|
    case _ => true
  }

  ghost predicate Linked(w: World) {
    w.activeLease.Some? ==> w.activeLease.value < |w.leases|
  }

  ghost function Next(w: World, c: Call): World
    requires Callable(w, c) && Linked(w)
  {
    match c
    case Enqueue(id, kind, messages) => AfterEnqueue(w, id, kind, messages)
    case TakeLease(ds) => AfterLease(w, ds)
    case Prepare(l, id, attempt) => AfterPrepare(w, l, id, attempt)
    case CompletePreparation(l, id, attempt, o) => AfterCompletePreparation(w, l, id, attempt, o)
    case BeginCommit(l, id, attempt) => AfterBeginCommit(w, l, id, attempt)
    case SettleCommit(l, id, attempt, o) => AfterSettleCommit(w, l, id, attempt, o)
    case Rollback(l) => AfterRollback(w, l)
    case SettleRollback(l, id, o) => AfterSettleRollback(w, l, id, o)
    case RevokeKind(kind) => AfterRevoke(w, kind)
    case Withdraw(id) => AfterWithdraw(w, id)
    case Reset => AfterReset(w)
  }
}
