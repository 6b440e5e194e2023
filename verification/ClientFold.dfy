/**
 * The client fold (packages/protocol/src/client-fold.ts), entry by entry on values: a client starts
 * empty and each entry it receives takes its state to the next one, or is refused.
 */
module ClientFold {
  import opened Prelude
  import opened OrderedMaps

  // ----- Entries

  datatype ModelRef = ModelRef(provider: string, modelId: string)

  datatype MessagePayload = MessagePayload(clientMessageId: Option<string>, assistant: Option<ModelRef>)
  datatype ReceiptPayload = ReceiptPayload(clientMessageId: string, command: string, origin: Option<string>,
      message: string, images: nat)
  datatype QueuedPayload = QueuedPayload(clientMessageId: string, delivery: string, message: string, images: nat)
  datatype InputState = Accepted | Started | Ended
  datatype WorkStart = WorkStart(workId: string, facts: string, child: Option<string>, state: string)
  datatype WorkUpdate = WorkUpdate(workId: string, state: Option<string>, progress: Option<string>,
      detail: Option<string>, child: Option<string>)
  datatype WorkResult = WorkResult(summary: Option<string>, child: Option<string>, truncated: Option<bool>)
  datatype WorkEnd = WorkEnd(workId: string, outcome: string, result: WorkResult, error: Option<string>)

  /** An entry's type and, when the client received it, its payload. */
  datatype Body =
    | MessageEntry(payload: Option<MessagePayload>, viewClientMessageId: Option<string>)
    | ModelChange(model: Option<ModelRef>)
    | ThinkingChange(level: Option<string>)
    | FastModeChange(enabled: Option<bool>)
    | PlanningChange(planning: Option<Option<string>>)
    | LabelEntry(bookmark: Option<(string, Option<string>)>)
    | SessionInfo(name: Option<Option<string>>)
    | OtherPublic(raw: string)
    | LeafMove(target: Option<Option<string>>)
    | InputReceipt(receipt: Option<ReceiptPayload>)
    | InputQueued(queued: Option<QueuedPayload>)
    | InputStateChange(change: Option<(string, InputState)>)
    | ForkedFrom(lineage: Option<string>)
    | WorkStarted(start: Option<WorkStart>)
    | WorkCheckpoint(update: Option<WorkUpdate>)
    | WorkFinished(end: Option<WorkEnd>)

  datatype Entry = Entry(id: string, parentId: Option<string>, ordinal: nat, timestamp: string, body: Body)

  /** Entries that are conversation nodes and become the leaf when appended. */
  predicate IsPublic(b: Body) {
    b.MessageEntry? || b.ModelChange? || b.ThinkingChange? || b.FastModeChange? || b.PlanningChange?
    || b.LabelEntry? || b.SessionInfo? || b.OtherPublic?
  }

  // ----- State

  datatype BranchValues = BranchValues(model: Option<ModelRef>, thinkingLevel: string, fastMode: bool,
      planning: Option<string>)
  const DEFAULT_VALUES := BranchValues(None, "off", false, None)

  datatype QueuedInput = QueuedInput(
    clientMessageId: string, state: InputState, ordinal: nat, command: Option<string>, delivery: Option<string>,
    origin: Option<string>, message: string, imageCount: nat)

  datatype WorkItem = WorkItem(
    workId: string, facts: string, child: Option<string>, state: string, outcome: Option<string>,
        progress: Option<string>,
    detail: Option<string>, result: Option<WorkResult>, error: Option<string>, startedOrdinal: nat, updatedOrdinal: nat,
    finishedOrdinal: Option<nat>, startedAt: string, finishedAt: Option<string>)

  datatype LabelValue = LabelValue(text: string, timestamp: string)

  /** What does not depend on the branch. */
  datatype Records = Records(
    name: Option<string>, labels: OMap<string, LabelValue>, queue: seq<QueuedInput>, forkedFrom: Option<string>,
    work: OMap<string, WorkItem>)

  datatype ClientState = ClientState(
    ordinal: nat, entries: seq<Entry>, byId: OMap<string, Entry>, earlier: bool, leafId: Option<string>,
    values: BranchValues, records: Records, base: BranchValues)

  const NO_RECORDS := Records(None, [], [], None, [])
  const EMPTY := ClientState(0, [], [], false, None, DEFAULT_VALUES, NO_RECORDS, DEFAULT_VALUES)

  // ----- The delivery queue

  function FindInput(queue: seq<QueuedInput>, id: string): (r: Option<QueuedInput>)
    ensures r.Some? ==> r.value in queue && r.value.clientMessageId == id
    ensures r.None? ==> forall q :: q in queue ==> q.clientMessageId != id
  {
    if queue == [] then None else if queue[0].clientMessageId == id then Some(queue[0]) else FindInput(queue[1..], id)
  }

  function Without(queue: seq<QueuedInput>, id: string): seq<QueuedInput> {
    Filter(queue, (q: QueuedInput) => q.clientMessageId != id)
  }

  /** `splice` before the first input admitted later, or at the end. */
  function Admit(queue: seq<QueuedInput>, input: QueuedInput): seq<QueuedInput> {
    if queue == [] || queue[0].ordinal > input.ordinal then [input] + queue else [queue[0]] + Admit(queue[1..], input)
  }

  function UpsertInput(queue: seq<QueuedInput>, input: QueuedInput): seq<QueuedInput> {
    Admit(Without(queue, input.clientMessageId), input)
  }

  function Receive(queue: seq<QueuedInput>, p: ReceiptPayload, ordinal: nat): seq<QueuedInput> {
    UpsertInput(queue,
        QueuedInput(p.clientMessageId, Accepted, ordinal, Some(p.command), None, p.origin, p.message, p.images))
  }

  function Enqueue(queue: seq<QueuedInput>, p: QueuedPayload, ordinal: nat): seq<QueuedInput> {
    var existing := FindInput(queue, p.clientMessageId);
    UpsertInput(queue, QueuedInput(p.clientMessageId, Accepted, ordinal, if existing.Some? then existing.value.command
        else None,
                                   Some(p.delivery), if existing.Some? then existing.value.origin
                                       else None, p.message, p.images))
  }

  function Transition(queue: seq<QueuedInput>, id: string, state: InputState): seq<QueuedInput> {
    var existing := FindInput(queue, id);
    if existing.None? then queue
    else if state.Ended? then Without(queue, id)
    else if existing.value.state != state then UpsertInput(queue, existing.value.(state := state))
    else queue
  }

  // ----- Work

  const WORK_FINISHED_MAX: nat := 64

  function StartWork(work: OMap<string, WorkItem>, p: WorkStart, ordinal: nat, timestamp: string): OMap<string,
      WorkItem> {
    if Has(work, p.workId) then work
    else Put(work, p.workId,
        WorkItem(p.workId, p.facts, p.child, p.state, None, None, None, None, None, ordinal, ordinal, None, timestamp,
        None))
  }

  function CheckpointWork(work: OMap<string, WorkItem>, p: WorkUpdate, ordinal: nat): OMap<string, WorkItem> {
    var item := Get(work, p.workId);
    if item.None? || item.value.outcome.Some? then work
    else Put(work, item.value.workId, item.value.(
           state := if p.state.Some? then p.state.value else item.value.state,
           progress := OrElse(p.progress, item.value.progress),
           detail := OrElse(p.detail, item.value.detail),
           child := OrElse(p.child, item.value.child),
           updatedOrdinal := ordinal))
  }

  function Values(work: OMap<string, WorkItem>): seq<WorkItem> {
    if work == [] then [] else [work[0].1] + Values(work[1..])
  }

  function RemoveAll(work: OMap<string, WorkItem>, items: seq<WorkItem>): OMap<string, WorkItem>
    decreases items
  {
    if items == [] then work else RemoveAll(Remove(work, items[0].workId), items[1..])
  }

  function FinishedOrdinal(item: WorkItem): int {
    if item.finishedOrdinal.Some? then item.finishedOrdinal.value else 0
  }

  /** The finished items beyond the newest, oldest first. */
  function Overdue(work: OMap<string, WorkItem>): seq<WorkItem> {
    var finished := SortBy(Filter(Values(work), (w: WorkItem) => w.finishedOrdinal.Some?), FinishedOrdinal);
    if |finished| <= WORK_FINISHED_MAX then [] else finished[..|finished| - WORK_FINISHED_MAX]
  }

  function Finished(item: WorkItem, p: WorkEnd, ordinal: nat, timestamp: string): WorkItem {
    item.(outcome := Some(p.outcome),
          result := if p.result == WorkResult(None, None, None) then item.result else Some(p.result),
          error := OrElse(p.error, item.error),
          updatedOrdinal := ordinal, finishedOrdinal := Some(ordinal), finishedAt := Some(timestamp))
  }

  /** An item without an outcome gets one, and then at most 64 finished items stay; any other call changes nothing. */
  function FinishWork(work: OMap<string, WorkItem>, p: WorkEnd, ordinal: nat, timestamp: string): OMap<string,
      WorkItem> {
    var item := Get(work, p.workId);
    if item.None? || item.value.outcome.Some? then work else
    var done := Put(work, item.value.workId, Finished(item.value, p, ordinal, timestamp));
    RemoveAll(done, Overdue(done))
  }

  // ----- Records

  function SetLabel(labels: OMap<string, LabelValue>, target: string, text: Option<string>,
      timestamp: string): OMap<string, LabelValue> {
    if text.Some?
        && text.value != "" then Put(labels, target, LabelValue(text.value, timestamp)) else Remove(labels, target)
  }

  function ApplyRecords(r: Records, e: Entry): Records {
    match e.body
    case InputReceipt(Some(p)) => r.(queue := Receive(r.queue, p, e.ordinal))
    case InputQueued(Some(p)) => r.(queue := Enqueue(r.queue, p, e.ordinal))
    case InputStateChange(Some(p)) => r.(queue := Transition(r.queue, p.0, p.1))
    case MessageEntry(payload, view) =>
      var id := OrElse(if payload.Some? then payload.value.clientMessageId else None, view);
      if id.Some? then r.(queue := Without(r.queue, id.value)) else r
    case LabelEntry(Some(p)) => r.(labels := SetLabel(r.labels, p.0, p.1, e.timestamp))
    case SessionInfo(Some(name)) => r.(name := if name == Some("") then None else name)
    case ForkedFrom(Some(lineage)) => r.(forkedFrom := Some(lineage))
    case WorkStarted(Some(p)) => r.(work := StartWork(r.work, p, e.ordinal, e.timestamp))
    case WorkCheckpoint(Some(p)) => r.(work := CheckpointWork(r.work, p, e.ordinal))
    case WorkFinished(Some(p)) => r.(work := FinishWork(r.work, p, e.ordinal, e.timestamp))
    case _ => r
  }

  // ----- The branch

  function ApplyBranchValue(v: BranchValues, e: Entry): BranchValues {
    match e.body
    case ModelChange(Some(model)) => v.(model := Some(model))
    case ThinkingChange(Some(level)) => v.(thinkingLevel := level)
    case FastModeChange(Some(enabled)) => v.(fastMode := enabled)
    case PlanningChange(Some(planning)) => v.(planning := planning)
    case MessageEntry(Some(p), _) => if p.assistant.Some? then v.(model := p.assistant) else v
    case _ => v
  }

  /** Every change along a path, from its root. */
  function Derive(base: BranchValues, path: seq<Entry>): BranchValues {
    if path == [] then base else ApplyBranchValue(Derive(base, path[..|path| - 1]), path[|path| - 1])
  }

  function Keys(byId: OMap<string, Entry>): set<string> {
    set e | e in byId :: e.0
  }

  lemma {:induction false} KeysAre(byId: OMap<string, Entry>, id: string)
    ensures id in Keys(byId) <==> Has(byId, id)
  {
    HasIsMember(byId, id);
    if Has(byId, id) {
      var i :| 0 <= i < |byId| && byId[i].0 == id;
      assert byId[i] in byId;
    }
    if id in Keys(byId) {
      var e :| e in byId && e.0 == id;
      var i :| 0 <= i < |byId| && byId[i] == e;
    }
  }

  /** The walk from `id` up through parents, in reverse; an id that is unknown or was met before ends it. */
  function HeldPath(byId: OMap<string, Entry>, id: Option<string>, seen: set<string>): seq<Entry>
    decreases Keys(byId) - seen
  {
    if id.None? || id.value in seen || !Has(byId, id.value) then [] else
    var entry := Get(byId, id.value).value;
    KeysAre(byId, id.value);
    assert id.value in Keys(byId) - seen;
    HeldPath(byId, entry.parentId, seen + {id.value}) + [entry]
  }

  function HeldBranch(byId: OMap<string, Entry>, leafId: Option<string>): seq<Entry> {
    HeldPath(byId, leafId, {})
  }

  function MoveLeaf(s: ClientState, target: Option<string>): ClientState {
    if target == s.leafId then s
    else s.(leafId := target, values := Derive(s.base, HeldBranch(s.byId, target)))
  }

  /** The leaf moves to the entry: one more change below the old leaf, values derived anew anywhere else. */
  function AppendToBranch(s: ClientState, e: Entry): ClientState {
    if e.parentId == s.leafId then s.(leafId := Some(e.id), values := ApplyBranchValue(s.values, e))
    else s.(leafId := Some(e.id), values := Derive(s.base, HeldBranch(s.byId, Some(e.id))))
  }

  // ----- Folding

  function Held(s: ClientState, e: Entry): ClientState {
    s.(entries := s.entries + [e], byId := Put(s.byId, e.id, e), records := ApplyRecords(s.records, e))
  }

  function Branched(s: ClientState, e: Entry): ClientState {
    if e.body.LeafMove? then (if e.body.target.Some? then MoveLeaf(s, e.body.target.value) else s)
    else if IsPublic(e.body) then AppendToBranch(s, e)
    else s
  }

  /** One entry, or the error of a fold that cannot accept it. */
  function Apply(s: ClientState, e: Entry): Result<ClientState> {
    if e.ordinal <= s.ordinal then Err("expected a later ordinal")
    else if Has(s.byId, e.id) then Err("duplicate entry id")
    else Ok(Branched(Held(s, e), e).(ordinal := e.ordinal))
  }

  function Advance(s: ClientState, ordinal: nat): Result<ClientState> {
    if ordinal < s.ordinal then Err("position is already later") else Ok(s.(ordinal := ordinal))
  }

  /** The pure fold: entry by entry. */
  function Fold(s: ClientState, entries: seq<Entry>): Result<ClientState>
    decreases entries
  {
    if entries == [] then Ok(s) else
    var next := Apply(s, entries[0]);
    if next.Err? then next else Fold(next.value, entries[1..])
  }

  /** Batches compose. */
  lemma {:induction false} FoldConcat(s: ClientState, a: seq<Entry>, b: seq<Entry>)
    ensures Fold(s, a + b) == if Fold(s, a).Err? then Fold(s, a) else Fold(Fold(s, a).value, b)
    decreases a
  {
    if a == [] {
      assert a + b == b;
    } else {
      assert (a + b)[1..] == a[1..] + b;
      var next := Apply(s, a[0]);
      if next.Ok? { FoldConcat(next.value, a[1..], b); }
    }
  }

  datatype ClientStep = FoldEntry(entry: Entry) | AdvanceTo(ordinal: nat)

  function Step(s: ClientState, step: ClientStep): Result<ClientState> {
    match step
    case FoldEntry(e) => Apply(s, e)
    case AdvanceTo(ordinal) => Advance(s, ordinal)
  }

  /** A client's run: entries folded and positions advanced. */
  function Run(s: ClientState, steps: seq<ClientStep>): Result<ClientState>
    decreases steps
  {
    if steps == [] then Ok(s) else
    var next := Step(s, steps[0]);
    if next.Err? then next else Run(next.value, steps[1..])
  }

  lemma {:induction false} RunConcat(s: ClientState, a: seq<ClientStep>, b: seq<ClientStep>)
    ensures Run(s, a + b) == if Run(s, a).Err? then Run(s, a) else Run(Run(s, a).value, b)
    decreases a
  {
    if a == [] {
      assert a + b == b;
    } else {
      assert (a + b)[1..] == a[1..] + b;
      var next := Step(s, a[0]);
      if next.Ok? { RunConcat(next.value, a[1..], b); }
    }
  }
}
