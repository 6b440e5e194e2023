# Volt: models and proofs

Volt is a coding agent whose terminal and phone clients share one conversation. This project models the
state machines that keep those clients, the host and the model provider in agreement, and proves what
each of them promises, in Dafny 4.11. `dafny verify dfyconfig.toml` checks everything.

| files | component |
|---|---|
| `Prelude`, `OrderedMaps` | options, results, `filter` and `sort`, and JavaScript's insertion-ordered `Map` |
| `LiveFold`, `LiveStreams`, `LiveReset`, `LiveLockstep` | the live lane: the fold host and clients share, what streams leave, re-emission, replica agreement over whole runs |
| `ClientFold`, `ClientRecords`, `ClientBranch`, `ClientSnapshot`, `ClientBounded`, `ClientWork`, `ClientRestart`, `ClientBuilder` | the client fold: its value, inputs and work items over their lives, the active branch, snapshots, bounded snapshots, the bounded work table, the copy-on-write builder |
| `InboxSpec`, `InboxInvariant`, `InboxRuns`, `Inbox` | the delivery inbox and its leases: the protocol as steps, its invariant, properties of runs, the two classes |
| `ReplayPolicy`, `ReplayMeaning` | the replay policy: its one pass, what its output means, when it is idempotent |
| `AgentTrace`, `AgentLoop` | the agent request loop against an arbitrary environment, and the automaton its traces follow |
| `Uuid`, `UuidRuns` | the UUIDv7 generator, after sections 5.7 and 6.2 of RFC 9562 |
| `Schema`, `SchemaGenerator` | the schema artifact generator |

## How the model is built

Imperative code stays imperative. The inbox, its leases, the client state builder, the UUID generator and
the schema generator are classes whose methods change fields, maps and arrays; loops that update
variables are methods with loops. Each such method is tied to a function on values, and the properties
are proved about those functions and about all runs of them.

Code that is called but not defined in the modelled files is a function the proofs know nothing about:
`parseStreamingJson` (only that empty text parses to the empty object), `applyUiPatch`,
`createRejectedToolCallFeedback`, and everything the agent loop awaits. The loop's environment answers
each question as a function of the moment it is asked at, so an abort may arrive at any await and hosts,
listeners, providers and tools answer as they like. Parallel tools follow any schedule. Clocks, random
bytes and generated ids are parameters.

Assumptions, each stated as a precondition where it is used:

- an abort signal is not taken back;
- provider streams follow their contract: at most one start, then updates, then one final message or a failure;
- for the claims about the branch: a log entry's id is not named, as a parent or as the leaf, before it arrives;
- for the transcript claims: deliveries are user messages, listeners replace no message, and the call ids
  of one turn are distinct;
- for the schema claims: one object has one content, registered schemas bring no JSON pointers of their
  own, and a recursive wrapper's `$ref` names one of its own definitions, each a schema object.

## What the code does not keep

Eight promises fail in corner cases. The code is modelled as it is; a lemma shows a run or an input where
the promise fails, and another says exactly when it holds.

- The replay policy is documented as idempotent (packages/ai/src/replay-policy.ts:22). It is, exactly when
  no completed turn leaves two calls with the same id unanswered: `RepeatedIdBreaksIdempotence`, `IdempotentIff`.
- A live batch that fails to apply after the log position moved leaves streaming clients behind, because
  the position is recorded before the fold runs: `FailedPublishReached`, `FailedPublishDiverges`. So does a
  log position that goes back: `HeadGoingBackReached`, `HeadGoingBackDiverges`. A client survives every
  batch the host applies exactly when it is not stranded so: `BatchesKeepClientIff`.
- A bounded client disagrees with a full one on the branch values below a child of the snapshot's leaf that
  the snapshot left out, whether the leaf is that child or a later entry under it: `OlderChildDisagrees`,
  `BelowLeftOutDisagrees`. They agree exactly when each value is set on the bounded client's own path, or what
  lies before that path leaves it as the snapshot has it: `ValuesAgreeIff`, `BoundedAgreesIff`.
- A bounded client restored from its own snapshot takes its current values as those before its oldest entry,
  and still has them after it moved back to where they did not hold: `OwnSnapshotDisagrees`.
  `SnapshotRoundTrip` says when that changes the state, `OwnSnapshotAgreesIff` and `OwnSnapshotAtAnyCut` when
  it is observable.
- A work id started again after its item was evicted appears again: `RestartDiffers`. The tables agree
  throughout a run exactly when no step does that: `BoundedWorkTable`, and one item is final exactly until its
  own id is: `FinishedIsFinal`.
- UUIDs stop increasing when the stored timestamp passes 2^48: `OverflowGoesBack`, `NextIncreasesIff`,
  `SuccessorsIncreaseIff`.
- An inner definition of a recursive schema is overwritten when the wrapper is registered under its name but
  enters another definition: `GenerateLost`, `InnerSurvivesIff`.

## Model

| member | source | states |
|---|---|---|
| `LiveFold.FoldLiveItems` | packages/protocol/src/live-fold.ts:160-218 | The loop over live items computes the item-by-item fold, failures of a patch included. |
| `LiveFold.FoldItemsConcat` | packages/protocol/src/live-fold.ts:155-218 | Folding two batches in turn is folding their concatenation; the first failure wins. |
| `LiveFold.LiveStreamingItems` | packages/protocol/src/live-fold.ts:265-310 | The pushed list is the streaming message's items followed by each running tool's, in the maps' order. |
| `LiveFold.PushCallItems` | packages/protocol/src/live-fold.ts:271-284 | For each held argument text whose index still holds a tool call: its start, and its text when there is any. |
| `LiveFold.PushPresentationItems` | packages/protocol/src/live-fold.ts:285-287 | One item for each presentation, in order. |
| `LiveFold.PushToolItems` | packages/protocol/src/live-fold.ts:290-308 | For each tool a start, its partial result if any, its end if it ended. |
| `LiveFold.StreamingArguments.Arguments` | packages/protocol/src/live-fold.ts:375-391 | However often the lazy getter is read, it is the parse of the call's text. |
| `LiveReset.DeltaKeepsWf` | packages/protocol/src/live-fold.ts:393-457 | Every assistant event keeps: one text per index, and a call with held text has the parse of that text as its arguments. |
| `LiveReset.FoldItemKeepsWf` | packages/protocol/src/live-fold.ts:180-216 | Every item keeps the reachable-state invariant, also that a tool that has not ended has no outcome. |
| `LiveReset.FoldItemsKeepsWf` | packages/protocol/src/live-fold.ts:160-218 | So does every batch. |
| `LiveReset.CommitKeepsWf` | packages/protocol/src/live-fold.ts:255-263 | So does a committed entry. |
| `LiveReset.OneToolRebuilds` | packages/protocol/src/live-fold.ts:290-308 | The items of one tool put exactly that tool back, whatever was held under its id. |
| `LiveReset.AssistantItemsRebuild` | packages/protocol/src/live-fold.ts:269-289 | The items of the streaming message leave exactly that message, without argument text at indexes that hold no call. |
| `LiveReset.StreamingRoundTrip` | packages/protocol/src/live-fold.ts:265-310 | The streaming items rebuild message and tools, order included, on a client that holds none or already holds the tools. |
| `LiveReset.ResetRoundTrip` | packages/protocol/src/live-fold.ts:312-318 | Folding the reset items of any reachable state from nothing gives it back, except for that leftover text. |
| `LiveReset.ScrubIsSame` | packages/protocol/src/live-fold.ts:271-273 | Dropping the leftover text leaves an equal live state. |
| `LiveReset.SameDelta` | packages/protocol/src/live-fold.ts:393-457 | Two messages that differ only in leftover text still do after the same event. |
| `LiveReset.SameItems` | packages/protocol/src/live-fold.ts:160-218 | States equal up to leftover text stay so under every batch, and fail on the same batches. |
| `LiveReset.SameCommit` | packages/protocol/src/live-fold.ts:255-263 | And under every commit. |
| `LiveReset.SameReEmission` | packages/protocol/src/live-fold.ts:265-318 | And when either is sent to a joining client, so the leftover text is never observable. |
| `LiveReset.StreamedArguments` | packages/protocol/src/live-fold.ts:437-449 | However the argument text is cut into deltas, the call's arguments are the parse of all of it joined. |
| `LiveStreams.TextIsJoined` | packages/protocol/src/live-fold.ts:407-417 | However a text is cut into deltas, its block holds all of it joined. |
| `LiveStreams.ThinkingIsJoined` | packages/protocol/src/live-fold.ts:418-428 | So does a thinking block, with the redaction it started with. |
| `LiveStreams.EndedCallStays` | packages/protocol/src/live-fold.ts:441-454 | A call that ended is the one its end named; argument text that comes late is ignored. |
| `LiveStreams.LatestReportShows` | packages/protocol/src/live-fold.ts:340-354 | A running tool shows the latest arguments and partial result reported, keeps its start and does not end by reports. |
| `LiveStreams.UntouchedValueStays` | packages/protocol/src/live-fold.ts:6-8 | A keyed value persists until an item of its own key sets, clears or patches it. |
| `LiveLockstep.ResyncCatchesUp` | packages/coding-agent/src/core/host/live-state.ts:1062-1067 | After the resent streaming items, or with none to resend, a client that is not stranded stands where the host stands. |
| `LiveLockstep.BatchKeepsClient` | packages/coding-agent/src/core/host/live-state.ts:1062-1088 | Every batch the host applies takes a client in the host's state to the host's next state, unless the client is stranded: streaming, at another position, with no resync due. |
| `LiveLockstep.StepKeepsLockstep` | packages/coding-agent/src/core/host/live-state.ts:775-793 | Publishing, committing, attaching, detaching and moving the position keep every attached client in the host's state. |
| `LiveLockstep.LiveLockstep` | packages/protocol/src/live-fold.ts:2-17 | Over every run of host steps, every attached client holds the host's values, streaming message and tools in the host's order. |
| `LiveLockstep.LockstepFromStart` | packages/coding-agent/src/core/host/live-state.ts:725-731 | The same from a new host, for every run in which the log position does not go back and no batch fails while a resync is due. |
| `LiveLockstep.NoticeKeepsClientIff` | packages/protocol/src/live-fold.ts:224-235 | A client in the host's state survives a notice exactly when it is not stranded. |
| `LiveLockstep.BatchesKeepClientIff` | packages/protocol/src/live-fold.ts:224-235 | A client in the host's state stays in it over every batch the host applies if and only if it is not stranded. |
| `LiveLockstep.FailedPublishDiverges` | packages/coding-agent/src/core/host/live-state.ts:1066-1068 | A batch that fails to apply while a resync is due strands every streaming client: the next batch makes them differ from the host. |
| `LiveLockstep.HeadGoingBackDiverges` | packages/coding-agent/src/core/host/live-state.ts:1099-1105 | So does a position that goes back to the last published one after a client attached ahead of it. |
| `LiveLockstep.FailedPublishReached` | packages/coding-agent/src/core/host/live-state.ts:1062-1068 | A run from a new host that gets there: one client, a streaming message, the position moves on, a patch of an absent key fails. |
| `LiveLockstep.HeadGoingBackReached` | packages/coding-agent/src/core/host/live-state.ts:1099-1105 | A run from a new host that gets there: a message streams, the position moves on, a client joins, the position goes back. |
| `Inbox.DeliveryInbox.Enqueue` | packages/agent/src/delivery-inbox.ts:258-273 | A fresh id is admitted at the end with the next sequence number and the current epoch; an id issued before is refused and nothing changes. |
| `Inbox.DeliveryInbox.Select` | packages/agent/src/delivery-inbox.ts:275-278 | All or the first of the pending deliveries of a kind. |
| `Inbox.DeliveryInbox.Lease` | packages/agent/src/delivery-inbox.ts:281-326 | Succeeds exactly when no lease is active and the selection is distinct, pending and a prefix of each kind's queue; then claims it in admission order. |
| `Inbox.CheckSelection` | packages/agent/src/delivery-inbox.ts:285-311 | The three loops accept exactly the valid selections. |
| `Inbox.CheckPending` | packages/agent/src/delivery-inbox.ts:285-294 | The first loop accepts exactly the distinct pending deliveries. |
| `Inbox.GroupByKind` | packages/agent/src/delivery-inbox.ts:295-300 | The second loop groups the selection by kind, in selection order. |
| `Inbox.DeliveryInbox.Revoke` | packages/agent/src/delivery-inbox.ts:328-333 | Performs the revoke step on queue and active lease, and returns what it took back in admission order. |
| `Inbox.DeliveryInbox.Withdraw` | packages/agent/src/delivery-inbox.ts:336-340 | Removes and returns one pending delivery, if there is one. |
| `Inbox.DeliveryInbox.RollbackActiveLease` | packages/agent/src/delivery-inbox.ts:353-355 | Rolls back the active lease and returns its pre-commit deliveries. |
| `Inbox.DeliveryInbox.Reset` | packages/agent/src/delivery-inbox.ts:357-362 | Performs the reset step: next generation, lease discarded except for commits under way, queue dropped. |
| `Inbox.DeliveryInbox.RestoreSettlementCallback` | packages/agent/src/delivery-inbox.ts:319-322 | A delivery goes back in sequence order, unless a reset happened since its lease was taken. |
| `Inbox.DeliveryInbox.FinishLeaseCallback` | packages/agent/src/delivery-inbox.ts:364-371 | Only the active lease is released. |
| `Inbox.InboxDeliveryLease.LeasedDeliveries` | packages/agent/src/delivery-inbox.ts:77-80 | The deliveries still merely leased, in order, and none once inactive. |
| `Inbox.InboxDeliveryLease.Owns` | packages/agent/src/delivery-inbox.ts:82-88 | Owned exactly while committing, or before the commit of an active lease. |
| `Inbox.InboxDeliveryLease.Prepare` | packages/agent/src/delivery-inbox.ts:97-104 | Starts a preparation exactly from `leased` on an active lease, and returns that delivery. |
| `Inbox.InboxDeliveryLease.CompletePreparation` | packages/agent/src/delivery-inbox.ts:106-125 | Only the attempt that is preparing completes: ready, given back, or failed. |
| `Inbox.InboxDeliveryLease.BeginCommit` | packages/agent/src/delivery-inbox.ts:128-134 | Only a ready attempt of an active lease begins its commit. |
| `Inbox.InboxDeliveryLease.SettleCommit` | packages/agent/src/delivery-inbox.ts:136-151 | Only the committing attempt settles, on stale leases too. |
| `Inbox.InboxDeliveryLease.Rollback` | packages/agent/src/delivery-inbox.ts:154-165 | Marks and returns exactly the pre-commit deliveries. |
| `Inbox.InboxDeliveryLease.SettleRollback` | packages/agent/src/delivery-inbox.ts:167-183 | A delivery revoked while rolling back ends revoked whatever the outcome; another is given back or failed. |
| `Inbox.InboxDeliveryLease.Revoke` | packages/agent/src/delivery-inbox.ts:194-209 | Revokes the kind's pre-commit deliveries, marks those rolling back, and returns both. |
| `Inbox.InboxDeliveryLease.ConcludeEntry` | packages/agent/src/delivery-inbox.ts:117-124 | An entry ends: its status, its way back to the queue, and the end of the lease. |
| `Inbox.InboxDeliveryLease.FinishIfExhausted` | packages/agent/src/delivery-inbox.ts:225-242 | A lease finishes exactly when it answers for no delivery any more. |
| `Inbox.RollBackEntries` | packages/agent/src/delivery-inbox.ts:156-162 | The loop of `rollback`. |
| `Inbox.RevokeEntries` | packages/agent/src/delivery-inbox.ts:196-206 | The loop of `revoke`. |
| `Inbox.DiscardEntries` | packages/agent/src/delivery-inbox.ts:188-190 | The loop of `discard`. |
| `InboxInvariant.NextKeepsInv` | packages/agent/src/delivery-inbox.ts:97-371 | Every call on the inbox or any lease handle keeps the invariant that ties queue, leases, ids, epochs and settled deliveries together. |
| `InboxRuns.OnePlace` | packages/agent/src/delivery-inbox.ts:97-371 | Under the invariant an issued delivery is at one place of the queue, in one live entry of one lease, or settled, and in no two of these. |
| `InboxRuns.LeaseConservation` | packages/agent/src/delivery-inbox.ts:97-371 | Over every run, stale handles and resets included: one place each, the queue strictly in sequence order and of the current epoch, no id committed twice. |
| `InboxRuns.StepMoves` | packages/agent/src/delivery-inbox.ts:97-371 | Every call moves deliveries and entries only along the protocol: settled stays settled, a commit under way is touched only by its own attempt. |
| `InboxRuns.RevokedIsDead` | packages/agent/src/delivery-inbox.ts:328-333 | Everything `revoke` returns is out of the queue, and can only end revoked. |
| `InboxRuns.RevocationCutoff` | packages/agent/src/delivery-inbox.ts:128-209 | What is out stays out of queue and commits in every continuation. |
| `InboxRuns.RevokedNeverReturns` | packages/agent/src/delivery-inbox.ts:328-333 | A delivery returned by `revoke` is never pending or committed again, even when it was rolling back. |
| `InboxRuns.CommitCutoff` | packages/agent/src/delivery-inbox.ts:128-151 | Once a commit began, no revoke, rollback, reset or other call changes it until its own attempt settles. |
| `InboxRuns.ResetCutoff` | packages/agent/src/delivery-inbox.ts:315-323 | After a reset nothing of an older epoch is ever pending again. |
| `InboxRuns.LeaseNeverFails` | packages/agent/src/delivery-inbox.ts:275-326 | With no active lease, leasing any selections of distinct kinds succeeds and claims exactly them in admission order. |
| `InboxRuns.LeaseAndGiveBack` | packages/agent/src/delivery-inbox.ts:154-183 | Leases that give everything back, in any order and with enqueues between, leave the queue as if only the enqueues had happened. |
| `InboxRuns.AscendingUnique` | packages/agent/src/delivery-inbox.ts:280-281 | A queue in admission order is determined by what is in it. |
| `AgentTrace.StartsAndEndsOnce` | packages/agent/src/agent-loop.ts:132-151 | A finished run emits `agent_start` first and only first, `agent_end` last and only last. |
| `AgentTrace.WellNested` | packages/agent/src/agent-loop.ts:186-458 | Turns alternate, deliveries fall between turns, and a started message closes before anything but its own updates; every close closes an open one. |
| `AgentTrace.StartedCallEndsOnce` | packages/agent/src/agent-loop.ts:594-714 | A started call ends exactly once before its turn does, starts no second time and is updated only before its end. |
| `AgentTrace.NextRequestIsFinal` | packages/agent/src/agent-loop.ts:223-226 | Whatever comes in between, the first request after a final-response batch is a final response. |
| `AgentTrace.FinalTurnRunsNoTool` | packages/agent/src/agent-loop.ts:331-345 | A turn that asked for a final response starts no tool. |
| `AgentTrace.FirstAsk` | packages/agent/src/agent-loop.ts:142-219 | The first question to the host comes right after the start, with the action the run started with and no message yet. |
| `AgentTrace.AskAfterTurn` | packages/agent/src/agent-loop.ts:366-378 | The question after a turn carries the authority and default action that turn's kind, calls and disposition lead to; none follows a failed response. |
| `AgentTrace.RequestSays` | packages/agent/src/agent-loop.ts:202-287 | A request's run messages are exactly those finalized before it, and its context is the initial messages, or those the host supplied last, followed by what was finalized since. |
| `AgentTrace.SuppliedContext` | packages/agent/src/agent-loop.ts:251-263 | A request is prepared just before its turn starts; if messages were supplied then, its context is exactly these. |
| `AgentTrace.RequestIsChosen` | packages/agent/src/agent-loop.ts:217-251 | Every request goes back to the choice that led to it, and that to the question it answers: only deliveries come between the two and nothing is finalized after the choice. |
| `AgentTrace.AbortCloses` | packages/agent/src/agent-loop.ts:288-316 | What a finished run does once it saw an abort: a cancelled turn of one message, the rest of the turn that was open, or nothing where it may be silent, and then the end. |
| `AgentTrace.FaithfulMeans` | packages/agent/src/agent-loop.ts:186-458 | What the monitor notes while a run goes on is what the whole trace says. |
| `AgentLoop.EmitCompletedMessage` | packages/agent/src/agent-loop.ts:963-972 | A message opens and closes; what its listeners made of it is what counts. |
| `AgentLoop.EndMessage` | packages/agent/src/agent-loop.ts:974-985 | A replacement of another role is an error, any other one stands. |
| `AgentLoop.EmitDelivery` | packages/agent/src/agent-loop.ts:440-451 | The messages of a delivery enter the context and the run's messages one by one, all of them. |
| `AgentLoop.EmitDeliveries` | packages/agent/src/agent-loop.ts:422-458 | Exactly the deliveries that were committed when they were reached enter, whole and in order; the first retained or failed one throws and nothing comes after it. |
| `AgentLoop.EmitOne` | packages/agent/src/agent-loop.ts:433-451 | One delivery: it enters if it is committed when it is reached, throws if it was retained or failed, and is passed over otherwise. |
| `AgentLoop.StreamAssistantResponse` | packages/agent/src/agent-loop.ts:469-567 | One request that sends what the replay policy makes of the converted context, never ending with an assistant message, then the provider's final message as its listeners left it; a failing stream throws, and nothing at all is asked when the abort came first. |
| `AgentLoop.ReceiveResponse` | packages/agent/src/agent-loop.ts:509-567 | The stream opens one message, updates it, and closes it with the provider's final one. |
| `AgentLoop.OpenResponse` | packages/agent/src/agent-loop.ts:509-567 | The message opens with the partial one and its updates, or with the final one alone. |
| `AgentLoop.PrepareToolCall` | packages/agent/src/agent-loop.ts:769-833 | After an abort nothing is prepared; a refusal is an error that asks for nothing. |
| `AgentLoop.ExecuteOne` | packages/agent/src/agent-loop.ts:605-635 | One call from its start to its end; its outcome is the refusal of its preparation, or what the tool returned at its moment. |
| `AgentLoop.ExecuteAndReport` | packages/agent/src/agent-loop.ts:605-637 | One call and the result message that reports its own outcome. |
| `AgentLoop.ExecuteInTurn` | packages/agent/src/agent-loop.ts:605-643 | The sequential loop: each call prepared at its own later moment, run alone and reported, until an abort; it throws only where a listener replaced a message. |
| `AgentLoop.ExecuteNext` | packages/agent/src/agent-loop.ts:605-643 | One pass of that loop. |
| `AgentLoop.ExecuteSequential` | packages/agent/src/agent-loop.ts:594-649 | Results in source order, a prefix only if aborted; each reports the outcome its own call came to, and the disposition is that of those outcomes. |
| `AgentLoop.StartAll` | packages/agent/src/agent-loop.ts:661-699 | Every call starts and is prepared in order; a refused one ends at once with the refusal of its preparation; fewer calls only if aborted. |
| `AgentLoop.StartOne` | packages/agent/src/agent-loop.ts:662-699 | One call started: running, or ended with the refusal of its preparation. |
| `AgentLoop.Interleave` | packages/agent/src/agent-loop.ts:701-703 | Under every schedule each tool settles on the first outcome the schedule returns for it, reports only until then and ends once. |
| `AgentLoop.TakeAction` | packages/agent/src/agent-loop.ts:701-703 | One action of the schedule on the running tools. |
| `AgentLoop.ExecuteParallel` | packages/agent/src/agent-loop.ts:651-714 | For every schedule: results in source order, each reporting the refusal of its own call or the first outcome returned for it, and the disposition of those outcomes. |
| `AgentLoop.ReportAll` | packages/agent/src/agent-loop.ts:704-712 | The results in source order, each reporting its own tool's outcome. |
| `AgentLoop.RefuseTools` | packages/agent/src/agent-loop.ts:332-344 | In a final-response turn every call is answered with the refusal, in order, and none runs. |
| `AgentLoop.EmitBoundaryAbort` | packages/agent/src/agent-loop.ts:382-413 | The abort marker is a turn of its own: one aborted message joins the run. |
| `AgentLoop.CloseCancelled` | packages/agent/src/agent-loop.ts:290-314 | A cancelled turn holds one assistant message, which joins context and run, and ends without results. |
| `AgentLoop.SeeAbort` | packages/agent/src/agent-loop.ts:202-222 | The loop leaves only at a moment at which the run is aborted. |
| `AgentLoop.LeaveAtBoundary` | packages/agent/src/agent-loop.ts:359-365 | Between turns the run leaves with the abort marker or silently, as the turn before it decides. |
| `AgentLoop.EndPreflight` | packages/agent/src/agent-loop.ts:288-317 | An abort before the request closes the turn with an aborted message that joins the run, and returns. |
| `AgentLoop.RunBatch` | packages/agent/src/agent-loop.ts:328-354 | The batch of a response: none, refused in a final-response turn, or run; outcomes, results and disposition are those of its calls. |
| `AgentLoop.FinishTurn` | packages/agent/src/agent-loop.ts:328-358 | The turn of a completed response ends at a boundary with the next authority and default action its calls and disposition lead to, and a transcript the replay policy leaves alone unless aborted. |
| `AgentLoop.CloseTurn` | packages/agent/src/agent-loop.ts:350-358 | The results join context and run messages in order, and the turn ends with what its tools said noted in the trace. |
| `AgentLoop.RunTurn` | packages/agent/src/agent-loop.ts:265-357 | One request with its tools: it returns, throws, or ends at that boundary with context and run messages as the trace tells them. |
| `AgentLoop.AskProvider` | packages/agent/src/agent-loop.ts:265-287 | The turn starts and the response joins context and run, unless the abort comes first. |
| `AgentLoop.AdmitRequest` | packages/agent/src/agent-loop.ts:233-263 | Exactly the deliveries of the action that were committed when they were reached join, in order, and make the choice; the request goes on exactly unless it was for deliveries and none was committed, prepared by the host unless aborted. |
| `AgentLoop.TakeDeliveries` | packages/agent/src/agent-loop.ts:233-240 | The deliveries of the action are dealt with at their moments; where listeners replace nothing, what joins is exactly the committed ones. |
| `AgentLoop.PrepareRequest` | packages/agent/src/agent-loop.ts:251-263 | The context becomes what the host supplied at that moment, or stays. |
| `AgentLoop.AskHost` | packages/agent/src/agent-loop.ts:210-217 | The host is asked with authority, default action and the run's messages. |
| `AgentLoop.EndByChoice` | packages/agent/src/agent-loop.ts:228-231 | A pause or stop the host decided on ends the run. |
| `AgentLoop.ReachRequest` | packages/agent/src/agent-loop.ts:202-263 | From a boundary to the next request: the action is the host's answer, or the default, or the final response that is due unless the host pauses; without a request the run returned or was cut short. |
| `AgentLoop.RunDispatchedLoop` | packages/agent/src/agent-loop.ts:186-380 | Whatever the host, its listeners, the provider, the tools and the abort signal do: every choice is the host's, its committed deliveries and no other message join before the request, every turn is what its tools said, and the next default follows from the turn; it throws only if listeners replace a message, a delivery is retained or fails, a stream fails, or an assistant message would be sent last. |
| `AgentLoop.RunAgentLoop` | packages/agent/src/agent-loop.ts:132-151 | Every run's trace is well formed and starts with the request to deliver the prompts, or a continuation without any; every choice is the host's with exactly its committed deliveries, every abort was there, every supplied context is the host's, every request sends the replayed context, and every turn's results answer its calls in order with their own outcomes, all of them unless aborted; a run that returns ends with exactly its finalized messages. |
| `AgentLoop.RequestFinds` | packages/agent/src/agent-loop.ts:217-287 | In every run, a request finds what was finalized before it, and since the host was asked that is exactly the committed deliveries of the action decided on. |
| `AgentLoop.FirstRequestHoldsPrompts` | packages/agent/src/agent-loop.ts:142-151 | Where the host leaves the first action alone and listeners replace nothing, the first request finds exactly the prompts. |
| `AgentLoop.UnpreparedContext` | packages/agent/src/agent-loop.ts:251-263 | Where the host supplies no context, a request finds the initial messages followed by those of the run. |
| `AgentLoop.SentTranscript` | packages/agent/src/agent-loop.ts:485-496 | What such a run of user deliveries and distinct call ids sends unconverted: what the policy makes of the initial messages, followed by the messages of the run as they are. |
| `AgentLoop.TurnTranscript` | packages/agent/src/agent-loop.ts:321-353 | A completed turn whose batch was not cut short extends such a transcript to another one. |
| `AgentLoop.RunAgainstReplay` | packages/ai/src/replay-policy.ts:24-75 | At such a request the policy leaves the run's own messages alone, and replaying the whole history is replaying the initial context followed by them. |
| `AgentLoop.DispositionOfParts` | packages/agent/src/agent-loop.ts:745-753 | The disposition of a batch does not depend on how it is cut or ordered. |
| `ReplayPolicy.ApplyReplayPolicy` | packages/ai/src/replay-policy.ts:24-75 | The one pass computes the turn-by-turn policy. |
| `ReplayPolicy.InsertSynthetic` | packages/ai/src/replay-policy.ts:29-43 | One error result for each pending call whose id has no result. |
| `ReplayPolicy.AppendHead` | packages/ai/src/replay-policy.ts:45-71 | What the pass does with a user or assistant message keeps the meaning of its three variables. |
| `ReplayPolicy.ReplayConcat` | packages/ai/src/replay-policy.ts:24-75 | Cutting a history before any user or assistant message composes. |
| `ReplayPolicy.ReplayNeverRewrites` | packages/ai/src/replay-policy.ts:24-75 | Appending from there never rewrites the earlier output. |
| `ReplayMeaning.TurnResultsAnswer` | packages/ai/src/replay-policy.ts:12-19 | Every call of a completed turn has a result, and every result answers one of its calls. |
| `ReplayMeaning.TurnResultsExact` | packages/ai/src/replay-policy.ts:29-43 | They answer each call once exactly when no two unanswered calls of the turn share an id. |
| `ReplayMeaning.OutputShape` | packages/ai/src/replay-policy.ts:9-11 | The output holds no failed turn and never starts with a result. |
| `ReplayMeaning.OutputReplayable` | packages/ai/src/replay-policy.ts:9-19 | The output is a transcript a provider accepts exactly when no turn leaves a repeated id unanswered. |
| `ReplayMeaning.FixedPoints` | packages/ai/src/replay-policy.ts:21-22 | The histories the policy leaves alone are exactly those transcripts. |
| `ReplayMeaning.IdempotentIff` | packages/ai/src/replay-policy.ts:21-22 | Applying it twice is applying it once exactly when no turn leaves a repeated id unanswered. |
| `ReplayMeaning.ReplayPolicyMeaning` | packages/ai/src/replay-policy.ts:9-22 | With distinct call ids per completed turn: accepted, no failed turn, idempotent. |
| `ReplayMeaning.RepeatedIdBreaksIdempotence` | packages/ai/src/replay-policy.ts:30-40 | A turn that calls one id twice and gets no result shows that the promise of idempotence fails. |
| `ReplayMeaning.KeepsHeads` | packages/ai/src/replay-policy.ts:45-72 | Every user message and completed turn stays, in order; nothing else appears but feedback for dropped turns. |
| `ClientFold.FoldConcat` | packages/protocol/src/client-fold.ts:652-659 | Batches compose. |
| `Prelude.SortAscending` | packages/protocol/src/client-fold.ts:741-749 | Sorting what is already in order changes nothing. |
| `ClientBranch.WalkHeldBranch` | packages/protocol/src/client-fold.ts:286-297 | The walk over held parents, cyclic ones included, gives the held path root first. |
| `ClientBranch.WalkIsChain` | packages/protocol/src/client-fold.ts:286-297 | The walk finds a maximal chain of held parents that ends at the leaf and meets no entry twice. |
| `ClientBranch.ChainIsUnique` | packages/protocol/src/client-fold.ts:286-297 | There is only one such chain. |
| `ClientBranch.PathUnaffected` | packages/protocol/src/client-fold.ts:343-345 | An entry nothing named before leaves every held path as it was. |
| `ClientBranch.ArrivedPath` | packages/protocol/src/client-fold.ts:447-453 | The path to an entry that just arrived is its parent's path and the entry. |
| `ClientBranch.ApplyFromScratch` | packages/protocol/src/client-fold.ts:441-487 | One entry keeps the branch values equal to the base overwritten along the held path. |
| `ClientBranch.IncrementalIsFromScratch` | packages/protocol/src/client-fold.ts:441-487 | So does every run of folds, leaf moves and advances over a well-formed log. |
| `ClientBranch.LateArrivalGoesStale` | packages/protocol/src/client-fold.ts:441-446 | Without that order: a leaf that named an entry before it came is right exactly when nothing on the entry's own path changes the base. |
| `ClientSnapshot.ClientRestore` | packages/protocol/src/client-fold.ts:707-752 | Accepts exactly entries in ordinal order, within the position, each id once, and gives the state the snapshot describes. |
| `ClientSnapshot.UpsertKeeps` | packages/protocol/src/client-fold.ts:530-536 | The queue stays strictly ordered by admission with one input per client message. |
| `ClientSnapshot.TransitionKeeps` | packages/protocol/src/client-fold.ts:519-528 | So it does over a state change of an input. |
| `ClientSnapshot.StartWorkKeeps` | packages/protocol/src/client-fold.ts:545-565 | The work table stays in start order, each item under its own id. |
| `ClientSnapshot.CheckpointWorkKeeps` | packages/protocol/src/client-fold.ts:567-580 | So it does over a checkpoint. |
| `ClientSnapshot.FinishWorkKeeps` | packages/protocol/src/client-fold.ts:583-610 | And over a finish with its evictions. |
| `ClientSnapshot.ApplyRecordsKeeps` | packages/protocol/src/client-fold.ts:402-439 | Every entry keeps queue, labels and work in order. |
| `ClientSnapshot.RunKeeps` | packages/protocol/src/client-fold.ts:338-361 | Every run of folds and advances keeps what a snapshot relies on. |
| `ClientSnapshot.SnapshotRoundTrip` | packages/protocol/src/client-fold.ts:672-752 | Restoring any state's own snapshot gives everything back but the values before its oldest entry, and so the whole state exactly when those are the defaults, or a bounded client's current values. |
| `ClientSnapshot.SnapshotAtAnyCut` | packages/protocol/src/client-fold.ts:672-752 | For every run from the empty client and every point of it: snapshot, restore and go on is never having cut. |
| `ClientRecords.FindUpserted` | packages/protocol/src/client-fold.ts:530-536 | An input is found as it was last written, and no other input changes. |
| `ClientRecords.ReceivedThenQueued` | packages/protocol/src/client-fold.ts:489-517 | A received input that is then queued keeps command and origin, and takes place, delivery and content from the queueing. |
| `ClientRecords.TransitionShows` | packages/protocol/src/client-fold.ts:519-528 | A state change touches one input only: its state, or its presence when it ended. |
| `ClientRecords.MessageEndsInput` | packages/protocol/src/client-fold.ts:413-417 | The message entry of an input takes it off the queue, by its payload's id or else by its view's. |
| `ClientRecords.CheckpointsShow` | packages/protocol/src/client-fold.ts:567-580 | Checkpoints of an open item show the latest of each report; every other field and item stays. |
| `ClientRecords.FinishShows` | packages/protocol/src/client-fold.ts:583-599 | Finishing records outcome, result, error and position once; every other item stays. |
| `ClientRecords.FinishedIsFinal` | packages/protocol/src/client-fold.ts:583-585 | Over every run of an accepted log, a finished item is at every point shown as it finished or not at all, if and only if no step starts its id while the table does not show it. |
| `ClientRecords.FinishedStays` | packages/protocol/src/client-fold.ts:583-585 | In the table that drops nothing it stays as it finished over every run. |
| `ClientBounded.DeriveOverwrites` | packages/protocol/src/client-fold.ts:480-487 | The values of a path are the base overwritten by its last changes. |
| `ClientBounded.DeriveAgain` | packages/protocol/src/client-fold.ts:750-750 | Applying the last part of a path again changes nothing, so a bounded client may start from the snapshot's values. |
| `ClientBounded.PathAscends` | packages/protocol/src/client-fold.ts:286-297 | Along a held path ordinals grow, so the newest part of the active branch is a valid snapshot. |
| `ClientBounded.JoinPaths` | packages/protocol/src/client-fold.ts:286-297 | A path and a chain that goes on from its end are the path to the chain's end. |
| `ClientBounded.SameValues` | packages/protocol/src/client-fold.ts:480-487 | Where the leaf is the snapshot's or descends from it over later entries, full and bounded client see the same branch values. |
| `ClientBounded.BesideApply` | packages/protocol/src/client-fold.ts:338-356 | Every entry keeps a full and a bounded client side by side. |
| `ClientBounded.StartsBeside` | packages/protocol/src/client-fold.ts:681-752 | A client restored from any newest part of the active branch starts beside the full one. |
| `ClientBounded.BoundedSnapshotAgrees` | packages/protocol/src/client-fold.ts:681-752 | After every common continuation both agree on leaf, name, labels, queue, lineage and work, and on the branch values whenever the leaf is or descends from the snapshot's, also after moving away and back. |
| `ClientBounded.BoundedAtAnyCut` | packages/protocol/src/client-fold.ts:674-752 | The same for every run from the empty client and every point of it. |
| `ClientBounded.PathEnds` | packages/protocol/src/client-fold.ts:286-297 | A walk over fewer held entries is the end of the walk over more. |
| `ClientBounded.ValuesAgreeIff` | packages/protocol/src/client-fold.ts:480-487 | The two clients agree on the branch values exactly when each value is set on the bounded client's own path, or what lies before that path leaves it as the snapshot has it. |
| `ClientBounded.BoundedAgreesIff` | packages/protocol/src/client-fold.ts:674-752 | The same over every run from the empty client, every point of it and every continuation. |
| `ClientBounded.OwnSnapshotAgreesIff` | packages/protocol/src/client-fold.ts:672-752 | A bounded client restored from its own snapshot keeps everything but the branch values over every continuation, and those exactly when nothing is lost. |
| `ClientBounded.BoundedIsSound` | packages/protocol/src/client-fold.ts:681-752 | A client restored from a bounded snapshot of a reachable state keeps everything a snapshot and the branch values rely on. |
| `ClientBounded.OwnSnapshotAtAnyCut` | packages/protocol/src/client-fold.ts:672-752 | So over every run, every bounded snapshot of it and whatever the bounded client received until its own snapshot: restored from that, it agrees with itself after every continuation exactly when nothing is lost. |
| `ClientBounded.OwnSnapshotDisagrees` | packages/protocol/src/client-fold.ts:441-446 | A run where it does not: one entry, a bounded snapshot, a child that turns fast mode on, the client's own snapshot, and a move back: the restored client alone still has fast mode on. |
| `ClientBounded.OlderChildDisagrees` | packages/protocol/src/client-fold.ts:441-446 | A child of the snapshot's leaf known before the snapshot and left out of it: returning to it, only the full client knows what it changed. |
| `ClientBounded.BelowLeftOutDisagrees` | packages/protocol/src/client-fold.ts:447-453 | An entry both clients receive below such a child: the bounded client holds the leaf, and what the child changed is lost. |
| `ClientWork.NewerFollow` | packages/protocol/src/client-fold.ts:601-604 | In finish order an item has as many newer ones as follow it. |
| `ClientWork.OverdueAre` | packages/protocol/src/client-fold.ts:601-604 | Evicted are exactly the finished items with 64 or more newer ones. |
| `ClientWork.EvictionBounds` | packages/protocol/src/client-fold.ts:600-607 | Eviction restricts a table to its open items and the 64 finished last. |
| `ClientWork.KeepsNewest` | packages/protocol/src/client-fold.ts:600-607 | Of the finished items the restriction holds all, or 64. |
| `ClientWork.StartBoth` | packages/protocol/src/client-fold.ts:545-565 | Starting a new id does the same to the kept and to the unbounded table. |
| `ClientWork.CheckpointBoth` | packages/protocol/src/client-fold.ts:567-580 | So does a checkpoint, of an evicted item too. |
| `ClientWork.FinishWorkBoth` | packages/protocol/src/client-fold.ts:583-610 | Finishing and evicting the kept table is restricting the unbounded one after finishing. |
| `ClientWork.BoundedWorkTable` | packages/protocol/src/client-fold.ts:545-610 | Over every run, the table is at every point the unbounded one restricted so, item for item and in order, if and only if no step starts an id whose item was evicted by then. |
| `ClientWork.StepBothIff` | packages/protocol/src/client-fold.ts:402-439 | One entry keeps the two tables together exactly when it restarts no evicted item. |
| `ClientWork.WorkRunIff` | packages/protocol/src/client-fold.ts:545-610 | The same for every run, from any state in which the tables agree. |
| `ClientWork.FreshIsNoRestart` | packages/protocol/src/client-fold.ts:545-546 | When each work id starts at most once, nothing is restarted. |
| `ClientWork.RestartIff` | packages/protocol/src/client-fold.ts:546-546 | An id started again keeps the tables together exactly when its item was not evicted. |
| `ClientRestart.FirstEvicted` | packages/protocol/src/client-fold.ts:600-607 | The item that finished first is evicted when 64 others finished after it. |
| `ClientRestart.RestartDiffers` | packages/protocol/src/client-fold.ts:545-565 | Runs from the empty client, every entry accepted: more than 64 items start and finish, the first starts again, and the tables differ. |
| `ClientBuilder.SpliceInput` | packages/protocol/src/client-fold.ts:533-535 | The input goes before the first one admitted later. |
| `ClientBuilder.ClientStateBuilder.constructor` | packages/protocol/src/client-fold.ts:321-336 | The builder stands for its basis and owns nothing. |
| `ClientBuilder.ClientStateBuilder.Append` | packages/protocol/src/client-fold.ts:627-636 | Appended in place if owned, otherwise to an owned copy. |
| `ClientBuilder.ClientStateBuilder.WriteById` | packages/protocol/src/client-fold.ts:347-349 | The index is written in place if owned, otherwise in an owned copy. |
| `ClientBuilder.ClientStateBuilder.SetWork` | packages/protocol/src/client-fold.ts:612-616 | The item is set in place if the table is owned, otherwise in an owned copy. |
| `ClientBuilder.ClientStateBuilder.SetLabel` | packages/protocol/src/client-fold.ts:618-624 | A label is set or deleted in an owned table; deleting what is absent leaves the table object alone. |
| `ClientBuilder.ClientStateBuilder.UpsertInput` | packages/protocol/src/client-fold.ts:530-536 | The queue becomes a new owned object with the input in its place. |
| `ClientBuilder.ClientStateBuilder.RemoveInput` | packages/protocol/src/client-fold.ts:538-543 | The queue becomes a new owned object without the input; an absent input leaves the queue object alone. |
| `ClientBuilder.ClientStateBuilder.EvictFinished` | packages/protocol/src/client-fold.ts:600-607 | The loop of deletions removes exactly the overdue items. |
| `ClientBuilder.ClientStateBuilder.FinishWork` | packages/protocol/src/client-fold.ts:583-610 | Finish and evict, as the pure step. |
| `ClientBuilder.ClientStateBuilder.ApplyRecords` | packages/protocol/src/client-fold.ts:402-439 | The records become those of the pure step, the branch stays. |
| `ClientBuilder.ClientStateBuilder.Rederive` | packages/protocol/src/client-fold.ts:480-487 | The loop along the held path gives the values from scratch. |
| `ClientBuilder.ClientStateBuilder.MoveLeaf` | packages/protocol/src/client-fold.ts:441-445 | The pure leaf move. |
| `ClientBuilder.ClientStateBuilder.AppendToBranch` | packages/protocol/src/client-fold.ts:448-453 | The pure extension of the branch. |
| `ClientBuilder.ClientStateBuilder.Apply` | packages/protocol/src/client-fold.ts:338-356 | One entry is the pure step on what the builder stands for, written only to what it owns; a refused entry changes nothing. |
| `ClientBuilder.ClientStateBuilder.Advance` | packages/protocol/src/client-fold.ts:358-361 | The position moves on or the call is refused. |
| `ClientBuilder.ClientStateBuilder.Finish` | packages/protocol/src/client-fold.ts:363-399 | The basis itself when nothing changed, otherwise a state of the same value over the basis's and owned collections. |
| `ClientBuilder.ClientFoldBatch` | packages/protocol/src/client-fold.ts:652-659 | Folding a batch on the heap is the pure fold; no object that existed before changes, and the result shares only the basis's collections. |
| `ClientBuilder.ClientAdvance` | packages/protocol/src/client-fold.ts:662-669 | Advancing changes only the position and copies nothing. |
| `ClientBuilder.FoldInBatches` | packages/protocol/src/client-fold.ts:652-659 | A second batch onto the first one's result is both at once, and the states before and between keep their value. |
| `Uuid.StampReads` | packages/agent/src/uuid.ts:31-36 | The first six bytes spell the timestamp modulo 2^48. |
| `Uuid.CountReads` | packages/agent/src/uuid.ts:37-42 | The counter is read back from the bits around version and variant. |
| `Uuid.VersionAndVariant` | packages/agent/src/uuid.ts:37-39 | Version 7 and variant 10, whatever the clock and the random bytes. |
| `Uuid.BigOrder` | packages/agent/src/uuid.ts:30-47 | Byte strings of one length are ordered as the numbers they spell. |
| `Uuid.LayoutOrder` | packages/agent/src/uuid.ts:30-47 | Two ids are ordered exactly by timestamp modulo 2^48, then counter, then the random rest. |
| `UuidRuns.UuidGenerator.Next` | packages/agent/src/uuid.ts:15-50 | A call moves timestamp and counter on and returns the text of the bytes it filled. |
| `UuidRuns.FillStamp` | packages/agent/src/uuid.ts:31-36 | Six bytes of timestamp. |
| `UuidRuns.FillCount` | packages/agent/src/uuid.ts:37-42 | Version, variant and counter, and nothing before them changed. |
| `UuidRuns.FillTail` | packages/agent/src/uuid.ts:43-47 | The random rest, and nothing before it changed. |
| `UuidRuns.FillId` | packages/agent/src/uuid.ts:30-47 | The filled bytes are the layout of timestamp, counter and random rest. |
| `UuidRuns.HexOrder` | packages/agent/src/uuid.ts:57-57 | Hexadecimal text is ordered as its bytes, and equal only for equal bytes. |
| `UuidRuns.FormatOrder` | packages/agent/src/uuid.ts:56-59 | Formatted ids are ordered exactly as their bytes. |
| `UuidRuns.FormatRoundTrip` | packages/agent/src/uuid.ts:56-59 | Reading a formatted id gives its bytes back. |
| `UuidRuns.TickClimbs` | packages/agent/src/uuid.ts:20-28 | Every call moves to a later timestamp or counter, also when the counter wraps and when the clock goes back. |
| `UuidRuns.IdsIncrease` | packages/agent/src/uuid.ts:15-50 | Over every run of clock readings and random bytes, any two ids increase as bytes and as text while the stored timestamp fits 48 bits. |
| `UuidRuns.IdsIncreaseFromStart` | packages/agent/src/uuid.ts:15-50 | So they do whenever the readings leave room for the calls below 2^48. |
| `UuidRuns.IdsDecode` | packages/agent/src/uuid.ts:15-59 | Each id carries version, variant, stored timestamp and counter, and its text reads back to it. |
| `UuidRuns.StoredBound` | packages/agent/src/uuid.ts:20-28 | The stored timestamp is never behind a reading and at most one millisecond a call ahead of them. |
| `UuidRuns.NextIncreasesIff` | packages/agent/src/uuid.ts:20-47 | From any state and reading: two successive ids increase exactly when a new reading has the greater low 48 bits, an old one finds room in the counter or below 2^48, or a reading a multiple of 2^48 ahead draws a greater counter or rest. |
| `UuidRuns.SuccessorsIncreaseIff` | packages/agent/src/uuid.ts:15-59 | The same for any two successive ids of a new generator over every run, in bytes and in text. |
| `UuidRuns.OverflowGoesBack` | packages/agent/src/uuid.ts:20-28 | A new generator asked in the last millisecond of the 48 bits, whose random counter starts at its end: the second id is not greater than the first. |
| `Schema.LookupMeans` | scripts/generate-protocol-schema.ts:38-51 | A name looked up stands for the same content, and is written in full under its own name. |
| `Schema.ContentFirst` | scripts/generate-protocol-schema.ts:26-36 | The first name of a content is the first name of its object. |
| `Schema.SharingInlines` | scripts/generate-protocol-schema.ts:65-97 | Inlining the pointers of any shared node gives the node back. |
| `Schema.SharingPreservesMeaning` | scripts/generate-protocol-schema.ts:55-97 | Inlining any definition ends, however much fuel is left over, and gives the registered schema back. |
| `Schema.CyclicRoundTrip` | scripts/generate-protocol-schema.ts:99-124 | Hoisting a wrapper's definition loses nothing but its markers: putting back what its pointers stand for gives the definition. |
| `SchemaGenerator.BuildNames` | scripts/generate-protocol-schema.ts:26-36 | The tables hold the first name of each registered object and of each content. |
| `SchemaGenerator.Generator.Lookup` | scripts/generate-protocol-schema.ts:44-51 | Identity first, content second, never the definition being written. |
| `SchemaGenerator.Generator.EnsureDef` | scripts/generate-protocol-schema.ts:55-63 | A registered name ends as a key and nothing new is left pending or unsettled; an unknown one is an error. |
| `SchemaGenerator.Generator.Serialize` | scripts/generate-protocol-schema.ts:65-97 | Terminates; it is the form of the node, or the definition being written when a wrapper enters that; every pointer names a key or a name promised to become one. |
| `SchemaGenerator.Generator.SharePointer` | scripts/generate-protocol-schema.ts:72-76 | A registered node becomes a pointer to a definition that is in the table. |
| `SchemaGenerator.Generator.SerializeItems` | scripts/generate-protocol-schema.ts:66-68 | An array item by item. |
| `SchemaGenerator.Generator.SerializeFields` | scripts/generate-protocol-schema.ts:92-96 | An object field by field, never spelling a pointer. |
| `SchemaGenerator.Generator.SerializeWrapper` | scripts/generate-protocol-schema.ts:77-91 | All the wrapper's names become keys, and it becomes the definition it enters, or a pointer to it. |
| `SchemaGenerator.Generator.HoistInner` | scripts/generate-protocol-schema.ts:79-87 | All inner definitions become keys, and the one being written is filled if it is among them. |
| `SchemaGenerator.Generator.HoistOne` | scripts/generate-protocol-schema.ts:82-87 | Unless another definition holds its name, an inner definition is written in its own form; one that is filled stays. |
| `SchemaGenerator.Generator.WriteHoisted` | scripts/generate-protocol-schema.ts:84-85 | A reserved name is filled with the form of its inner definition. |
| `SchemaGenerator.Generator.SerializeCyclicDef` | scripts/generate-protocol-schema.ts:100-124 | Inside a wrapper: the form with references by name as pointers, registered parts shared and markers dropped; every pointer names a key or an inner name. |
| `SchemaGenerator.Generator.SerializeCyclicFields` | scripts/generate-protocol-schema.ts:116-123 | The fields in their form, in order, without the markers of inner definitions. |
| `SchemaGenerator.Generator.SerializeCyclicField` | scripts/generate-protocol-schema.ts:117-122 | One field in its form, or none when it is a marker. |
| `SchemaGenerator.Generator.SerializeCyclicItems` | scripts/generate-protocol-schema.ts:101-103 | An array inside a wrapper, item by item. |
| `SchemaGenerator.Generator.Generate` | scripts/generate-protocol-schema.ts:126-128 | Every registered name is defined, nothing is left pending, and every definition comes from a registered schema or a wrapper of the registry. |
| `SchemaGenerator.GeneratedInlines` | scripts/generate-protocol-schema.ts:53-128 | Without wrappers, inlining each definition of the generated table gives its schema back. |
| `SchemaGenerator.PlainSource` | scripts/generate-protocol-schema.ts:55-97 | Without wrappers a definition can only be the shared form of its schema. |
| `SchemaGenerator.HoistedIsOwn` | scripts/generate-protocol-schema.ts:79-87 | A wrapper's name that no other definition takes holds the form of the wrapper's own definition. |
| `SchemaGenerator.InnerSurvivesIff` | scripts/generate-protocol-schema.ts:55-97 | Exactly when an inner definition survives, where its name is not claimed by others: unless the schema registered under the name is a wrapper that enters another definition; then the name ends as a pointer to that one. |
| `SchemaGenerator.GenerateLost` | scripts/generate-protocol-schema.ts:55-97 | The generated table of such a registry: a wrapper registered as `a` with definitions `a` and `b` that enters `b` ends with `a` pointing to `b`, and its own definition of `a` is lost. |
| `SchemaGenerator.GenerateDefs` | scripts/generate-protocol-schema.ts:26-128 | The whole generation: it terminates, every pointer names a filled definition, every definition is the form of a registered schema or of one a wrapper brings, an inner name not claimed by others holds its own definition or the pointer that overwrote it; without wrappers inlining gives every registered schema back. |

## Left out

- Live fold: which `Map` objects batches share; the loop's copies are modelled as values.
- Live fold: `liveCommitOf`, which reads a commit off an entry, and content indexes that are no integers.
- LiveLockstep.StepKeepsLockstep: every client sees every value; the gates that hide host requests from some clients when they attach are not modelled.
- Live host: directives for one client, and the outbox of batches published while another is delivered.
- Client fold: trimming of a conversation's name, the separate facts of a work item (kind, title, parent and similar, one opaque text here), freezing.
- Client builder: identity of model objects; a change to an equal model counts as no change, which leaves the value of the result the same.
- Client fold: wire validation of entries, and which entry types count as conversation nodes, which is fixed by the types modelled.
- Inbox: the simple queries (`list`, `hasPending`, `canPrepare`, `listRevocable`) and error texts.
- Agent loop: sharing of the context's message array between host and loop, exceptions of listeners other than a replacement of another role, and `runAgentLoopContinue` with the stream wrappers.
- Agent loop: message text, usage, timestamps, durations and tool arguments; `transformContext` and `convertToLlm` are one function.
- AgentLoop.RunDispatchedLoop: observes at most a given number of requests, since the source loops until the host stops; the claims hold for every such number.
- SchemaGenerator.InnerSurvivesIff: where several wrappers or schemas claim one name, the first to reserve it in traversal order stands; which one that is is not stated, only that it is one of them.
- AgentLoop.Interleave: a schedule that never finishes a tool leaves the run waiting, as it does in the source.
- Schema generator: sorting of keys, the envelope and the file, names inherited from `Object.prototype`, and a `$defs` that is an array.
- UUID generator: the source of random bytes and readings that are no integers.
