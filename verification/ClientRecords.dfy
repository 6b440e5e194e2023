/** What the delivery queue and the work table show for one input or one work item, over their lives. */
module ClientRecords {
  import opened Prelude
  import opened OrderedMaps
  import opened ClientFold
  import opened ClientSnapshot
  import opened ClientWork

  // ----- One input of the queue

  lemma {:induction false} FindWithout(queue: seq<QueuedInput>, id: string, k: string)
    ensures FindInput(Without(queue, id), k) == if k == id then None else FindInput(queue, k)
  {
    if queue != [] { FindWithout(queue[1..], id, k); }
  }

  lemma {:induction false} FindAdmitted(queue: seq<QueuedInput>, input: QueuedInput, k: string)
    requires FindInput(queue, input.clientMessageId).None?
    ensures FindInput(Admit(queue, input), k) == if k == input.clientMessageId then Some(input) else FindInput(queue, k)
  {
    if queue != [] && queue[0].ordinal <= input.ordinal {
      assert queue[0] in queue && queue[0].clientMessageId != input.clientMessageId;
      FindAdmitted(queue[1..], input, k);
      assert Admit(queue, input)[1..] == Admit(queue[1..], input);
    } else {
      assert Admit(queue, input)[1..] == queue;
    }
  }

  /** An input is found as it was last written, and no other input changes. */
  lemma {:induction false} FindUpserted(queue: seq<QueuedInput>, input: QueuedInput, k: string)
    ensures FindInput(UpsertInput(queue, input), k) == if k == input.clientMessageId then Some(input)
        else FindInput(queue, k)
  {
    FindWithout(queue, input.clientMessageId, input.clientMessageId);
    FindWithout(queue, input.clientMessageId, k);
    FindAdmitted(Without(queue, input.clientMessageId), input, k);
  }

  /**
   * A received input that is then queued keeps its command and origin and takes its place and content
   * from the queueing.
   */
  lemma {:induction false} ReceivedThenQueued(queue: seq<QueuedInput>, p: ReceiptPayload, received: nat,
      q: QueuedPayload, queued: nat, k: string)
    requires p.clientMessageId == q.clientMessageId
    ensures FindInput(Enqueue(Receive(queue, p, received), q, queued), k) ==
            if k == p.clientMessageId
            then Some(QueuedInput(k, Accepted, queued, Some(p.command), Some(q.delivery), p.origin, q.message,
                q.images))
            else FindInput(queue, k)
  {
    var input :=
        QueuedInput(p.clientMessageId, Accepted, received, Some(p.command), None, p.origin, p.message, p.images);
    FindUpserted(queue, input, k);
    FindUpserted(queue, input, p.clientMessageId);
    FindUpserted(Receive(queue, p, received),
                 QueuedInput(p.clientMessageId, Accepted, queued, Some(p.command), Some(q.delivery), p.origin,
                     q.message, q.images), k);
  }

  /** A state change touches one input only: its state, or its presence when it ended. */
  lemma {:induction false} TransitionShows(queue: seq<QueuedInput>, id: string, state: InputState, k: string)
    ensures var held := FindInput(queue, k);
            FindInput(Transition(queue, id, state), k) ==
            if k != id || held.None? then held else if state.Ended? then None else Some(held.value.(state := state))
  {
    var existing := FindInput(queue, id);
    if existing.Some? {
      if state.Ended? { FindWithout(queue, id, k); }
      else if existing.value.state != state { FindUpserted(queue, existing.value.(state := state), k); }
    }
  }

  /** The message entry of an input takes it off the queue, by its payload's id or else by its view's. */
  lemma {:induction false} MessageEndsInput(r: Records, e: Entry, k: string)
    requires e.body.MessageEntry?
    ensures var id :=
        OrElse(if e.body.payload.Some? then e.body.payload.value.clientMessageId else None, e.body.viewClientMessageId);
            FindInput(ApplyRecords(r, e).queue, k) == if id == Some(k) then None else FindInput(r.queue, k)
  {
    var id := OrElse(if e.body.payload.Some? then e.body.payload.value.clientMessageId
        else None, e.body.viewClientMessageId);
    if id.Some? { FindWithout(r.queue, id.value, k); }
  }

  // ----- One work item

  function Checkpoints(work: OMap<string, WorkItem>, updates: seq<(WorkUpdate, nat)>): OMap<string, WorkItem> {
    if updates == [] then work
    else CheckpointWork(Checkpoints(work, updates[..|updates| - 1]), updates[|updates| - 1].0, updates[|updates| - 1].1)
  }

  function Progresses(updates: seq<(WorkUpdate, nat)>): seq<Option<string>> { seq(|updates|,
      i requires 0 <= i < |updates| => updates[i].0.progress) }
  function Details(updates: seq<(WorkUpdate, nat)>): seq<Option<string>> { seq(|updates|,
      i requires 0 <= i < |updates| => updates[i].0.detail) }
  function Children(updates: seq<(WorkUpdate, nat)>): seq<Option<string>> { seq(|updates|,
      i requires 0 <= i < |updates| => updates[i].0.child) }
  function States(updates: seq<(WorkUpdate, nat)>): seq<Option<string>> { seq(|updates|,
      i requires 0 <= i < |updates| => updates[i].0.state) }

  /** An open item after checkpoints: the latest state, progress, detail and child, everything else as it started. */
  function Checkpointed(item: WorkItem, updates: seq<(WorkUpdate, nat)>): WorkItem {
    item.(state := Latest(States(updates), Some(item.state)).value,
          progress := Latest(Progresses(updates), item.progress), detail := Latest(Details(updates), item.detail),
          child := Latest(Children(updates), item.child),
          updatedOrdinal := if updates == [] then item.updatedOrdinal else updates[|updates| - 1].1)
  }

  lemma {:induction false} CheckpointedSnoc(item: WorkItem, updates: seq<(WorkUpdate, nat)>, last: (WorkUpdate, nat))
    ensures Checkpointed(item, updates + [last]) == Updated(Checkpointed(item, updates), last.0, last.1)
  {
    var all := updates + [last];
    assert States(all) == States(updates) + [last.0.state]
        && Progresses(all) == Progresses(updates) + [last.0.progress];
    assert Details(all) == Details(updates) + [last.0.detail] && Children(all) == Children(updates) + [last.0.child];
    LatestSnoc(States(updates), last.0.state, Some(item.state));
    LatestSnoc(Progresses(updates), last.0.progress, item.progress);
    LatestSnoc(Details(updates), last.0.detail, item.detail);
    LatestSnoc(Children(updates), last.0.child, item.child);
  }

  /** Checkpoints of an open item show the latest of each report, and leave every other item alone. */
  lemma {:induction false} CheckpointsShow(work: OMap<string, WorkItem>, item: WorkItem,
      updates: seq<(WorkUpdate, nat)>, k: string)
    requires Get(work, item.workId) == Some(item) && item.outcome.None?
    requires forall i :: 0 <= i < |updates| ==> updates[i].0.workId == item.workId
    ensures Get(Checkpoints(work, updates), item.workId) == Some(Checkpointed(item, updates))
    ensures k != item.workId ==> Get(Checkpoints(work, updates), k) == Get(work, k)
    decreases |updates|
  {
    if updates != [] {
      var n := |updates| - 1;
      CheckpointsShow(work, item, updates[..n], k);
      assert updates == updates[..n] + [updates[n]];
      CheckpointedSnoc(item, updates[..n], updates[n]);
      var before := Checkpoints(work, updates[..n]);
      GetPut(before, item.workId, Checkpointed(item, updates), item.workId);
      GetPut(before, item.workId, Checkpointed(item, updates), k);
    }
  }

  /** Finishing an open item records its outcome and position, and leaves every other item alone. */
  lemma {:induction false} FinishShows(work: OMap<string, WorkItem>, item: WorkItem, p: WorkEnd, ordinal: nat,
      timestamp: string, k: string)
    requires Get(work, p.workId) == Some(item) && item.workId == p.workId && item.outcome.None?
    ensures var done := Get(FinishItem(work, p, ordinal, timestamp), p.workId);
            && done.Some? && done.value.outcome == Some(p.outcome) && done.value.finishedOrdinal == Some(ordinal)
            && done.value.finishedAt == Some(timestamp) && done.value.startedOrdinal == item.startedOrdinal
            && done.value.progress == item.progress && done.value.error == OrElse(p.error, item.error)
            && (done.value.result == Some(p.result)
                || (p.result == WorkResult(None, None, None) && done.value.result == item.result))
    ensures k != p.workId ==> Get(FinishItem(work, p, ordinal, timestamp), k) == Get(work, k)
  {
    GetPut(work, p.workId, Finished(item, p, ordinal, timestamp), p.workId);
    GetPut(work, p.workId, Finished(item, p, ordinal, timestamp), k);
  }

  lemma {:induction false} FinishedKept(work: OMap<string, WorkItem>, id: string, e: Entry, at: int)
    requires TableOk(work, at) && Has(work, id) && Get(work, id).value.outcome.Some?
    ensures Get(KeepAll(work, e), id) == Get(work, id)
  {
    match e.body
    case WorkStarted(Some(p)) =>
      if !Has(work,
          p.workId) { GetPut(work, p.workId,
          WorkItem(p.workId, p.facts, p.child, p.state, None, None, None, None, None, e.ordinal, e.ordinal, None,
          e.timestamp, None), id); }
    case WorkCheckpoint(Some(p)) =>
      var item := Get(work, p.workId);
      if item.Some? { TableRow(work, at, p.workId); GetPut(work, p.workId, Updated(item.value, p, e.ordinal), id); }
    case WorkFinished(Some(p)) =>
      var item := Get(work, p.workId);
      if item.Some? { TableRow(work, at, p.workId); GetPut(work, p.workId,
          Finished(item.value, p, e.ordinal, e.timestamp), id); }
    case _ =>
  }

  /** In a table that drops nothing, a finished item stays as it is over every run. */
  lemma {:induction false} FinishedStays(s: ClientState, work: OMap<string, WorkItem>, id: string,
      steps: seq<ClientStep>)
    requires TableOk(work, s.ordinal) && Run(s, steps).Ok?
    requires Has(work, id) && Get(work, id).value.outcome.Some?
    ensures Get(KeepAllRun(work, steps), id) == Get(work, id)
    decreases steps
  {
    if steps != [] {
      if steps[0].FoldEntry? {
        ApplyFields(s, steps[0].entry);
        EntryBoth(s.records, work, steps[0].entry, s.ordinal);
        FinishedKept(work, id, steps[0].entry, s.ordinal);
      }
      FinishedStays(Step(s, steps[0]).value, KeepAllStep(work, steps[0]), id, steps[1..]);
    }
  }

  // ----- When a finished item is final

  /** The table of a client shows this item under the id, or none. */
  predicate ShownOrGone(work: OMap<string, WorkItem>, id: string, item: WorkItem) {
    Get(work, id).None? || Get(work, id) == Some(item)
  }

  /** It does, now and after every step. */
  predicate FinalThroughout(s: ClientState, id: string, item: WorkItem, steps: seq<ClientStep>)
    decreases steps
  {
    && ShownOrGone(s.records.work, id, item)
    && (steps == [] ||
        (Step(s, steps[0]).Ok? ==> FinalThroughout(Step(s, steps[0]).value, id, item, steps[1..])))
  }

  /** No step starts the id while the table does not show it. */
  predicate NeverAnew(s: ClientState, id: string, steps: seq<ClientStep>)
    decreases steps
  {
    steps == [] ||
    (!StartsAnew(s.records.work, id, steps[0])
     && (Step(s, steps[0]).Ok? ==> NeverAnew(Step(s, steps[0]).value, id, steps[1..])))
  }

  predicate StartsAnew(work: OMap<string, WorkItem>, id: string, step: ClientStep) {
    Starts(step) == Some(id) && !Has(work, id)
  }

  lemma {:induction false} RemovedOrSame(work: OMap<string, WorkItem>, items: seq<WorkItem>, id: string)
    ensures Get(RemoveAll(work, items), id).None? || Get(RemoveAll(work, items), id) == Get(work, id)
    decreases items
  {
    if items != [] {
      GetRemove(work, items[0].workId, id);
      RemovedOrSame(Remove(work, items[0].workId), items[1..], id);
    }
  }

  /** One entry, seen from one id: only a new start shows anything else. */
  lemma {:induction false} EntryShows(r: Records, e: Entry, at: nat, id: string, item: WorkItem)
    requires WorkOk(r.work, at) && ShownOrGone(r.work, id, item) && item.outcome.Some?
    ensures ShownOrGone(ApplyRecords(r, e).work, id, item) <==> !StartsAnew(r.work, id, FoldEntry(e))
  {
    match e.body
    case WorkStarted(Some(p)) =>
      if !Has(r.work, p.workId) {
        var started := WorkItem(p.workId, p.facts, p.child, p.state, None, None, None, None, None, e.ordinal,
            e.ordinal, None, e.timestamp, None);
        GetPut(r.work, p.workId, started, id);
      }
    case WorkCheckpoint(Some(p)) =>
      if Has(r.work, p.workId) { CheckpointShows(r.work, p, e.ordinal, at, id); }
    case WorkFinished(Some(p)) =>
      if Has(r.work, p.workId) { FinishOthers(r.work, p, e.ordinal, e.timestamp, at, id); }
    case _ =>
  }

  lemma {:induction false} RowKeyed(work: OMap<string, WorkItem>, at: nat, id: string)
    requires WorkOk(work, at) && Has(work, id)
    ensures Get(work, id).value.workId == id
  {
    GetIsMember(work, id);
  }

  lemma {:induction false} CheckpointShows(
      work: OMap<string, WorkItem>, p: WorkUpdate, ordinal: nat, at: nat, id: string)
    requires WorkOk(work, at) && Has(work, p.workId)
    ensures (id != p.workId || Get(work, id).value.outcome.Some?) ==>
        Get(CheckpointWork(work, p, ordinal), id) == Get(work, id)
  {
    RowKeyed(work, at, p.workId);
    if Get(work, p.workId).value.outcome.None? && id != p.workId {
      GetPut(work, p.workId, Updated(Get(work, p.workId).value, p, ordinal), id);
    }
  }

  lemma {:induction false} FinishOthers(
      work: OMap<string, WorkItem>, p: WorkEnd, ordinal: nat, timestamp: string, at: nat, id: string)
    requires WorkOk(work, at) && Has(work, p.workId)
    ensures id != p.workId || Get(work, id).value.outcome.Some? ==>
        var after := Get(FinishWork(work, p, ordinal, timestamp), id); after.None? || after == Get(work, id)
  {
    RowKeyed(work, at, p.workId);
    var item := Get(work, p.workId).value;
    if item.outcome.None? && id != p.workId {
      var done := Put(work, p.workId, Finished(item, p, ordinal, timestamp));
      GetPut(work, p.workId, Finished(item, p, ordinal, timestamp), id);
      RemovedOrSame(done, Overdue(done), id);
    }
  }

  /**
   * A finished item is final: over every run, the table shows it as it finished or not at all, exactly
   * until its id is started after the item was evicted.
   */
  lemma {:induction false} FinishedIsFinal(s: ClientState, id: string, item: WorkItem, steps: seq<ClientStep>)
    requires Kept(s) && Run(s, steps).Ok? && item.outcome.Some? && ShownOrGone(s.records.work, id, item)
    ensures FinalThroughout(s, id, item, steps) <==> NeverAnew(s, id, steps)
    decreases steps
  {
    if steps != [] {
      var next := Step(s, steps[0]).value;
      if steps[0].FoldEntry? {
        ApplyFields(s, steps[0].entry);
        ApplyKeeps(s, steps[0].entry);
        EntryShows(s.records, steps[0].entry, s.ordinal, id, item);
      }
      if !StartsAnew(s.records.work, id, steps[0]) { FinishedIsFinal(next, id, item, steps[1..]); }
    }
  }
}
