/**
 * Replica agreement over whole runs: a host (packages/coding-agent/src/core/host/live-state.ts) that
 * publishes batches, commits entries and attaches clients, and the clients that fold what it sends.
 */
module LiveLockstep {
  import opened Prelude
  import opened LiveFold
  import opened LiveReset

  /** The last publish happened at position `published`, which starts at -1; the log stands at `head`. */
  datatype World = World(host: LiveState, published: int, head: int, clients: map<string, LiveState>)

  datatype Step =
    | MoveHead(head: int)
    | Publish(items: seq<LiveItem>)
    | Commit(commit: LiveCommit)
    | Attach(id: string)
    | Detach(id: string)

  const START := World(EmptyLiveFold(0), -1, 0, map[])

  /** The streaming state a publish repeats because `basedOn` moved. */
  function Resync(w: World): seq<LiveItem> {
    if w.head != w.published && IsLiveStreaming(w.host) then StreamingItems(w.host) else []
  }

  function HostAfter(env: Env, w: World, items: seq<LiveItem>): Result<LiveState> {
    FoldItems(env, w.host.(basedOn := w.head), items)
  }

  /** What one client holds after a batch: an empty batch is not delivered, and a client that throws keeps its state. */
  function ClientAfter(env: Env, client: LiveState, basedOn: int, batch: seq<LiveItem>): LiveState {
    if batch == [] then client else
    var r := FoldLiveFrame(env, client, LiveFrame(basedOn, false, batch));
    if r.Ok? then r.value else client
  }

  /** What a client that joins holds: the reset frame folded. */
  function Joined(env: Env, w: World): LiveState {
    var r := FoldLiveFrame(env, EmptyLiveFold(0), LiveFrame(w.head, true, ResetItems(w.host)));
    if r.Ok? then r.value else EmptyLiveFold(w.head)
  }

  function Next(env: Env, w: World, step: Step): World {
    match step
    case MoveHead(head) => w.(head := head)
    case Publish(items) =>
      var r := HostAfter(env, w, items);
      // The position is recorded before the fold runs, so a fold that throws still moves it.
      if r.Err? then w.(published := w.head) else
      var batch := Resync(w) + items;
      World(r.value, w.head, w.head, map id | id in w.clients :: ClientAfter(env, w.clients[id], w.head, batch))
    case Commit(commit) =>
      w.(host := FoldLiveCommit(w.host, commit),
         clients := map id | id in w.clients :: FoldLiveCommit(w.clients[id], commit))
    case Attach(id) => if id in w.clients then w else w.(clients := w.clients[id := Joined(env, w)])
    case Detach(id) => w.(clients := w.clients - {id})
  }

  function Run(env: Env, w: World, steps: seq<Step>): World
    decreases steps
  {
    if steps == [] then w else Run(env, Next(env, w, steps[0]), steps[1..])
  }

  /** The log position never goes back, and no batch fails to apply while streaming state waits to be resent. */
  ghost predicate Proper(env: Env, w: World, step: Step) {
    match step
    case MoveHead(head) => w.head <= head
    case Publish(items) => HostAfter(env, w, items).Ok? || Resync(w) == []
    case _ => true
  }

  ghost predicate ProperRun(env: Env, w: World, steps: seq<Step>)
    decreases steps
  {
    steps == [] || (Proper(env, w, steps[0]) && ProperRun(env, Next(env, w, steps[0]), steps[1..]))
  }

  /** Every attached client holds the host's state. */
  ghost predicate Lockstep(w: World) {
    forall id :: id in w.clients ==> Same(w.host, w.clients[id])
  }

  /** A client behind the published position streams nothing; none is ahead of the log. */
  ghost predicate Placed(w: World, client: LiveState) {
    client.basedOn <= w.head && (client.basedOn < w.published ==> !IsLiveStreaming(w.host))
  }

  ghost predicate Inv(env: Env, w: World) {
    && Wf(env, w.host) && w.published <= w.head && 0 <= w.head
    && Lockstep(w)
    && forall id :: id in w.clients ==> Placed(w, w.clients[id])
  }

  /** The base a client folds a batch onto. */
  function Base(client: LiveState, basedOn: int): LiveState {
    if basedOn == client.basedOn then client else WithoutStreaming(client, basedOn)
  }

  /** The host would not resend what streams, although this client is about to discard it. */
  ghost predicate Stranded(w: World, client: LiveState) {
    IsLiveStreaming(w.host) && w.head == w.published && client.basedOn != w.head
  }

  /** After the resent streaming items, or with none to resend, a client stands where the host stands. */
  lemma {:induction false} ResyncCatchesUp(env: Env, w: World, client: LiveState)
    requires ValidEnv(env) && Wf(env, w.host) && Same(w.host, client) && !Stranded(w, client)
    ensures FoldItems(env, Base(client, w.head), Resync(w)).Ok?
    ensures var c := FoldItems(env, Base(client, w.head), Resync(w)).value;
            c.basedOn == w.head && Same(w.host, c)
  {
    var base := Base(client, w.head);
    if Resync(w) != [] {
      StreamingRoundTrip(env, base, w.host);
      ScrubIsSame(w.host);
    }
  }

  /** A client that is not stranded goes with the host over every batch the host applies. */
  lemma {:induction false} BatchKeepsClient(env: Env, w: World, client: LiveState, items: seq<LiveItem>)
    requires ValidEnv(env) && Wf(env, w.host) && Same(w.host, client) && !Stranded(w, client)
    requires HostAfter(env, w, items).Ok?
    ensures var c := ClientAfter(env, client, w.head, Resync(w) + items);
            var h := HostAfter(env, w, items).value;
            Same(h, c) && c.basedOn == if Resync(w) + items == [] then client.basedOn else w.head
  {
    var batch := Resync(w) + items;
    if batch != [] {
      ResyncCatchesUp(env, w, client);
      var base := Base(client, w.head);
      FoldItemsConcat(env, base, Resync(w), items);
      var caught := FoldItems(env, base, Resync(w)).value;
      SameItems(env, w.host.(basedOn := w.head), caught, items);
      FoldKeepsBasedOn(env, caught, items);
    }
  }

  lemma {:induction false} FoldKeepsBasedOn(env: Env, s: LiveState, items: seq<LiveItem>)
    ensures FoldItems(env, s, items).Ok? ==> FoldItems(env, s, items).value.basedOn == s.basedOn
    decreases items
  {
    if items != [] {
      var next := FoldItem(env, s, items[0]);
      if next.Ok? { FoldKeepsBasedOn(env, next.value, items[1..]); }
    }
  }

  /** Every proper step keeps every attached client in lockstep with the host. */
  lemma {:induction false} StepKeepsLockstep(env: Env, w: World, step: Step)
    requires ValidEnv(env) && Inv(env, w) && Proper(env, w, step)
    ensures Inv(env, Next(env, w, step))
  {
    var w' := Next(env, w, step);
    match step
    case MoveHead(_) =>
    case Publish(items) =>
      if HostAfter(env, w, items).Ok? {
        FoldItemsKeepsWf(env, w.host.(basedOn := w.head), items);
        forall id | id in w'.clients ensures Same(w'.host, w'.clients[id]) && Placed(w', w'.clients[id]) {
          assert Placed(w, w.clients[id]);
          BatchKeepsClient(env, w, w.clients[id], items);
        }
      } else {
        forall id | id in w'.clients ensures Placed(w', w'.clients[id]) {
          assert Placed(w, w.clients[id]);
        }
      }
    case Commit(commit) =>
      CommitKeepsWf(env, w.host, commit);
      forall id | id in w'.clients ensures Same(w'.host, w'.clients[id]) && Placed(w', w'.clients[id]) {
        assert Placed(w, w.clients[id]);
        SameCommit(w.host, w.clients[id], commit);
      }
    case Attach(id) =>
      ResetRoundTrip(env, w.host, w.head);
      ScrubIsSame(w.host);
    case Detach(_) =>
  }

  /**
   * Live lockstep: after every proper run of publishes, commits, attaches and detaches, every attached
   * client holds the host's values, streaming message and running tools, in the host's order.
   */
  lemma {:induction false} LiveLockstep(env: Env, w: World, steps: seq<Step>)
    requires ValidEnv(env) && Inv(env, w) && ProperRun(env, w, steps)
    ensures Inv(env, Run(env, w, steps))
    ensures Lockstep(Run(env, w, steps))
    decreases steps
  {
    if steps != [] {
      StepKeepsLockstep(env, w, steps[0]);
      LiveLockstep(env, Next(env, w, steps[0]), steps[1..]);
    }
  }

  lemma {:induction false} LockstepFromStart(env: Env, steps: seq<Step>)
    requires ValidEnv(env) && ProperRun(env, START, steps)
    ensures Lockstep(Run(env, START, steps))
  {
    LiveLockstep(env, START, steps);
  }

  // ----- Why runs must be proper

  /**
   * Exactly when a client in the host's state stays in it over the next delivered batch that leaves the
   * state alone, such as a notice: unless it is stranded.
   */
  lemma {:induction false} NoticeKeepsClientIff(env: Env, w: World, client: LiveState, notice: string)
    requires ValidEnv(env) && Wf(env, w.host) && Same(w.host, client)
    ensures HostAfter(env, w, [Ephemeral(notice)]) == Ok(w.host.(basedOn := w.head))
    ensures Same(w.host, ClientAfter(env, client, w.head, Resync(w) + [Ephemeral(notice)])) <==> !Stranded(w, client)
  {
    var items := [Ephemeral(notice)];
    FoldOne(env, w.host.(basedOn := w.head), Ephemeral(notice));
    var base := Base(client, w.head);
    FoldItemsConcat(env, base, Resync(w), items);
    if Resync(w) == [] {
      FoldOne(env, base, Ephemeral(notice));
      assert Resync(w) + items == items;
    } else {
      StreamingRoundTrip(env, base, w.host);
      var caught := FoldItems(env, base, StreamingItems(w.host)).value;
      FoldOne(env, caught, Ephemeral(notice));
      ScrubIsSame(w.host);
    }
  }

  /** So a client in the host's state stays in it over every batch the host applies exactly when it is not stranded. */
  lemma {:induction false} BatchesKeepClientIff(env: Env, w: World, client: LiveState)
    requires ValidEnv(env) && Wf(env, w.host) && Same(w.host, client)
    ensures !Stranded(w, client) <==>
            forall items :: HostAfter(env, w, items).Ok? ==>
              Same(HostAfter(env, w, items).value, ClientAfter(env, client, w.head, Resync(w) + items))
  {
    if !Stranded(w, client) {
      forall items | HostAfter(env, w, items).Ok?
        ensures Same(HostAfter(env, w, items).value, ClientAfter(env, client, w.head, Resync(w) + items))
      {
        BatchKeepsClient(env, w, client, items);
      }
    } else {
      NoticeKeepsClientIff(env, w, client, "");
      assert HostAfter(env, w, [Ephemeral("")]).Ok?;
    }
  }

  /**
   * A batch that fails to apply after the position moved strands every client that streams with the
   * host: the position is recorded, the streaming items are not sent, and the next batch discards them.
   */
  lemma {:induction false} FailedPublishDiverges(env: Env, w: World, id: string, items: seq<LiveItem>, notice: string)
    requires ValidEnv(env) && Inv(env, w) && id in w.clients && w.clients[id].basedOn != w.head
    requires !Proper(env, w, Publish(items))
    ensures !Lockstep(Run(env, w, [Publish(items), Publish([Ephemeral(notice)])]))
  {
    var w1 := Next(env, w, Publish(items));
    NoticeKeepsClientIff(env, w1, w1.clients[id], notice);
    var w2 := Next(env, w1, Publish([Ephemeral(notice)]));
    assert Same(w1.host, w2.clients[id]) <==> Same(w2.host, w2.clients[id]);
    assert [Publish(items), Publish([Ephemeral(notice)])][1..] == [Publish([Ephemeral(notice)])];
    assert Run(env, w1, [Publish([Ephemeral(notice)])]) == w2;
  }

  /** So does a position that goes back to the last published one after a client joined ahead of it. */
  lemma {:induction false} HeadGoingBackDiverges(env: Env, w: World, id: string, notice: string)
    requires ValidEnv(env) && Inv(env, w) && id in w.clients && IsLiveStreaming(w.host)
    requires w.clients[id].basedOn != w.published
    ensures !Lockstep(Run(env, w, [MoveHead(w.published), Publish([Ephemeral(notice)])]))
  {
    var w1 := Next(env, w, MoveHead(w.published));
    NoticeKeepsClientIff(env, w1, w1.clients[id], notice);
    var w2 := Next(env, w1, Publish([Ephemeral(notice)]));
    assert Same(w1.host, w2.clients[id]) <==> Same(w2.host, w2.clients[id]);
    assert [MoveHead(w.published), Publish([Ephemeral(notice)])][1..] == [Publish([Ephemeral(notice)])];
    assert Run(env, w1, [Publish([Ephemeral(notice)])]) == w2;
  }

  // ----- Runs that get there

  lemma {:induction false} RunOne(env: Env, w: World, step: Step, rest: seq<Step>)
    ensures Run(env, w, [step] + rest) == Run(env, Next(env, w, step), rest)
    ensures ProperRun(env, w, [step] + rest) <==> Proper(env, w, step) && ProperRun(env, Next(env, w, step), rest)
  {
    assert ([step] + rest)[1..] == rest;
  }

  /** A host that streams to one client, at position 0. */
  function OneStreams(message: AssistantMessage): LiveState {
    EmptyLiveFold(0).(assistant := Some(Assistant(message, false, [], [])))
  }

  lemma {:induction false} StreamingStarts(env: Env, w: World, message: AssistantMessage)
    requires w.host == EmptyLiveFold(0) && w.head == 0
    ensures HostAfter(env, w, [AssistantStart(message)]) == Ok(OneStreams(message))
    ensures ClientAfter(env, EmptyLiveFold(0), 0, Resync(w) + [AssistantStart(message)]) == OneStreams(message)
  {
    FoldOne(env, EmptyLiveFold(0), AssistantStart(message));
    assert Resync(w) + [AssistantStart(message)] == [AssistantStart(message)];
  }

  /** A client joins an empty host, a message starts to stream, and the position moves on. */
  function StrandingRun(message: AssistantMessage): seq<Step> {
    [Attach("c")] + ([Publish([AssistantStart(message)])] + ([MoveHead(1)] + []))
  }

  lemma {:induction false} StrandingRunEnds(env: Env, message: AssistantMessage)
    ensures ProperRun(env, START, StrandingRun(message))
    ensures Run(env, START, StrandingRun(message)) == World(OneStreams(message), 0, 1, map["c" := OneStreams(message)])
  {
    var w1 := World(EmptyLiveFold(0), -1, 0, map["c" := EmptyLiveFold(0)]);
    assert ResetItems(START.host) == [];
    assert Next(env, START, Attach("c")) == w1;
    StreamingStarts(env, w1, message);
    var w2 := World(OneStreams(message), 0, 0, map["c" := OneStreams(message)]);
    assert Next(env, w1, Publish([AssistantStart(message)])) == w2;
    RunOne(env, START, Attach("c"), [Publish([AssistantStart(message)])] + ([MoveHead(1)] + []));
    RunOne(env, w1, Publish([AssistantStart(message)]), [MoveHead(1)] + []);
    RunOne(env, w2, MoveHead(1), []);
  }

  /** The run a failed publish breaks: a patch of a value the host does not hold, then any notice. */
  lemma {:induction false} FailedPublishReached(env: Env, message: AssistantMessage, key: string, notice: string)
    requires ValidEnv(env)
    ensures ProperRun(env, START, StrandingRun(message))
    ensures var w := Run(env, START, StrandingRun(message));
            Lockstep(w) && !Lockstep(Run(env, w, [Publish([PatchValue(key, [])]), Publish([Ephemeral(notice)])]))
  {
    StrandingRunEnds(env, message);
    LiveLockstep(env, START, StrandingRun(message));
    var w := Run(env, START, StrandingRun(message));
    FoldOne(env, w.host.(basedOn := 1), PatchValue(key, []));
    assert HostAfter(env, w, [PatchValue(key, [])]).Err?;
    assert Resync(w) != [] by { assert StreamingItems(w.host)[0] == AssistantStart(message); }
    FailedPublishDiverges(env, w, "c", [PatchValue(key, [])], notice);
  }

  /** A message streams, the position moves on, and a client joins there. */
  function JoiningRun(message: AssistantMessage): seq<Step> {
    [Publish([AssistantStart(message)])] + ([MoveHead(1)] + ([Attach("c")] + []))
  }

  lemma {:induction false} JoiningRunEnds(env: Env, message: AssistantMessage)
    requires ValidEnv(env)
    ensures ProperRun(env, START, JoiningRun(message))
    ensures var w := Run(env, START, JoiningRun(message));
            w.published == 0 && IsLiveStreaming(w.host) && "c" in w.clients && w.clients["c"].basedOn == 1
  {
    StreamingStarts(env, START, message);
    var w1 := Next(env, START, Publish([AssistantStart(message)]));
    assert w1.host == OneStreams(message) && w1.published == 0 && w1.head == 0 && w1.clients == map[];
    var w2 := Next(env, w1, MoveHead(1));
    ResetRoundTrip(env, w2.host, 1);
    RunOne(env, START, Publish([AssistantStart(message)]), [MoveHead(1)] + ([Attach("c")] + []));
    RunOne(env, w1, MoveHead(1), [Attach("c")] + []);
    RunOne(env, w2, Attach("c"), []);
  }

  /** The run a position that goes back breaks. */
  lemma {:induction false} HeadGoingBackReached(env: Env, message: AssistantMessage, notice: string)
    requires ValidEnv(env)
    ensures ProperRun(env, START, JoiningRun(message))
    ensures var w := Run(env, START, JoiningRun(message));
            Lockstep(w) && !Lockstep(Run(env, w, [MoveHead(0), Publish([Ephemeral(notice)])]))
  {
    JoiningRunEnds(env, message);
    LiveLockstep(env, START, JoiningRun(message));
    HeadGoingBackDiverges(env, Run(env, START, JoiningRun(message)), "c", notice);
  }
}
