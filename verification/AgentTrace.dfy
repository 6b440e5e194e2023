/**
 * What a run of the agent loop (packages/agent/src/agent-loop.ts) emits, and the automaton that says
 * which sequences of events are well formed.
 */
module AgentTrace {
  import opened Prelude
  import opened ReplayPolicy

  /** How a tool batch wants the run to go on. */
  datatype Disposition = Continue | StopRun | FinalResponse

  /** Why a request is made, what the host may answer, and who may ask for the next request. */
  datatype Reason = ByDelivery | ByContinuation | ByFinalResponse
  datatype Action = Request(reason: Reason, deliveries: seq<seq<Message>>) | Pause | StopAction
  datatype Authority = Provider | ToolContinuation | FinalAuthority

  /** How a run goes on when the host does not say otherwise. */
  datatype Next = Next(authority: Authority, default: Action)

  /** Only a final response may follow. */
  predicate Must(next: Next) { next.authority.FinalAuthority? }

  /** The authority and the default action after a completed turn. */
  function AfterTurn(final: bool, calls: nat, disposition: Disposition): Next {
    if final then Next(Provider, StopAction)
    else if disposition.FinalResponse? then Next(FinalAuthority, Request(ByFinalResponse, []))
    else if calls > 0 && disposition.Continue? then Next(ToolContinuation, Request(ByContinuation, []))
    else Next(Provider, StopAction)
  }

  /** The host is asked at a moment, with what would come next and the messages of the run so far. */
  datatype Ask = Ask(at: nat, next: Next, produced: seq<Message>)

  /**
   * What came of it at a later moment: the action, the moment each of its deliveries was reached at, those
   * that were committed, and the messages of the run then.
   */
  datatype Choice = Choice(action: Action, asked: seq<nat>, picked: seq<nat>, produced: seq<Message>, at: nat)

  /** The choice leads to a request: one for deliveries needs at least one of them. */
  predicate LeadsOn(choice: Choice) {
    choice.action.Request? && !(choice.action.reason.ByDelivery? && choice.picked == [])
  }

  /** What a finalized tool call leaves: its content, and what it asks of the run. */
  datatype ToolOutcome = ToolOutcome(content: string, isError: bool, disposition: Option<Disposition>)

  /**
   * How the tools of a turn ran: not at all, refused in a final response, one after the other, or side
   * by side. `prepared` holds the moment each call was prepared at, `ran` the moment the calls of a
   * parallel batch started to run.
   */
  datatype Batch = NoTools | Refusal | Sequential(prepared: seq<nat>) | Parallel(prepared: seq<nat>, ran: nat)

  /**
   * What the model remembers of a turn besides its messages: its batch, the moment it ended at, and
   * whether the run was aborted then.
   */
  datatype TurnNote =
    TurnNote(batch: Batch, outcomes: seq<ToolOutcome>, disposition: Disposition, at: nat, aborted: bool)

  /**
   * The loop's events. `MessageEnd` carries what its listeners made of the message, a tool event the
   * call's position in its batch, `TurnEnd` a note on the batch, `AgentStart` the first default action
   * and the initial context. Five are not events of the source: `HostAsked` and `Decided` mark the question
   * to the host and what came of it, `RequestPrepared` the context the host may have supplied, `AbortSeen`
   * that the loop leaves because of an abort, and `Dispatch` the call of the provider with the messages of
   * the context, those of this run, and those that were sent.
   */
  datatype Event =
    | AgentStart(first: Action, initial: seq<Message>)
    | AgentEnd(messages: seq<Message>)
    | HostAsked(ask: Ask)
    | Decided(ask: Ask, choice: Choice)
    | RequestPrepared(at: nat, supplied: Option<seq<Message>>)
    | AbortSeen(at: nat)
    | TurnStart
    | Dispatch(final: bool, context: seq<Message>, produced: seq<Message>, at: nat, sent: seq<Message>)
    | TurnEnd(message: Message, results: seq<Message>, note: TurnNote)
    | DeliveryStart(messages: seq<Message>)
    | MessageStart(message: Message)
    | MessageUpdate(message: Message)
    | MessageEnd(message: Message, finalized: Message)
    | ToolStart(index: nat)
    | ToolUpdate(index: nat)
    | ToolEnd(index: nat)

  /**
   * Where a run stands. Between turns it asks the host and delivers; a choice makes it ready for a turn or
   * lets it rest. A run that sees an abort leaves with a cancelled turn, unless it may be silent about it.
   */
  datatype Phase =
    | Fresh
    | Between(next: Next, silent: bool)
    | Choosing(ask: Ask)
    | Delivering(ask: Ask)
    | Ready(final: bool)
    | Primed(final: bool)
    | TurnOpen(final: bool)
    | Asked(final: bool)
    | Streaming(final: bool)
    | Working(final: bool, running: set<nat>, ended: set<nat>)
    | ResultOpen(final: bool, ended: set<nat>)
    | Leaving
    | Cancelled
    | CancelOpen
    | CancelClosed
    | Resting
    | Done
    | Bad

  /** Tools are refused in final-response turns, and only there; such a turn asks for nothing more. */
  predicate Fits(note: TurnNote, final: bool) {
    && (note.batch.NoTools? || (note.batch.Refusal? <==> final))
    && (final ==> note.disposition.Continue?)
  }

  function NextPhase(p: Phase, e: Event): Phase {
    match p
    case Fresh => if e.AgentStart? then Between(Next(Provider, e.first), true) else Bad
    case Between(next, silent) =>
      (match e
       case HostAsked(ask) => if ask.next == next then Choosing(ask) else Bad
       case AbortSeen(_) => if silent then Resting else Leaving
       case _ => Bad)
    case Choosing(ask) =>
      (match e
       case DeliveryStart(_) => p
       case MessageStart(_) => Delivering(ask)
       case Decided(a, choice) => if a == ask then AfterChoice(ask, choice) else Bad
       case AbortSeen(_) => Leaving
       case _ => Bad)
    case Delivering(ask) => if e.MessageEnd? then Choosing(ask) else Bad
    case Ready(final) =>
      (match e
       case RequestPrepared(_, _) => Primed(final)
       case AbortSeen(_) => Leaving
       case _ => Bad)
    case Primed(final) =>
      (match e
       case TurnStart => TurnOpen(final)
       case AbortSeen(_) => Leaving
       case _ => Bad)
    case TurnOpen(final) =>
      (match e
       case Dispatch(f, _, _, _, _) => if f == final then Asked(final) else Bad
       case AbortSeen(_) => Cancelled
       case _ => Bad)
    case Asked(final) => if e.MessageStart? then Streaming(final) else Bad
    case Streaming(final) =>
      (match e
       case MessageUpdate(_) => p
       case MessageEnd(_, _) => Working(final, {}, {})
       case _ => Bad)
    case Working(final, running, ended) =>
      (match e
       case ToolStart(i) => if final || i in running || i in ended then Bad else Working(final, running + {i}, ended)
       case ToolUpdate(i) => if i in running then p else Bad
       case ToolEnd(i) => if i in running then Working(final, running - {i}, ended + {i}) else Bad
       case MessageStart(_) => if running == {} then ResultOpen(final, ended) else Bad
       case TurnEnd(message, _, note) =>
         if running == {} && Fits(note, final) then TurnEnded(final, message, note) else Bad
       case _ => Bad)
    case ResultOpen(final, ended) => if e.MessageEnd? then Working(final, {}, ended) else Bad
    case Leaving => if e.TurnStart? then Cancelled else Bad
    case Cancelled => if e.MessageStart? then CancelOpen else Bad
    case CancelOpen => if e.MessageEnd? then CancelClosed else Bad
    case CancelClosed => if e.TurnEnd? && e.results == [] && e.note.batch.NoTools? then Resting else Bad
    case Resting => if e.AgentEnd? then Done else Bad
    case _ => Bad
  }

  /** A request that must be a final response is one. */
  function AfterChoice(ask: Ask, choice: Choice): Phase {
    if !LeadsOn(choice) then Resting
    else if Must(ask.next) && !choice.action.reason.ByFinalResponse? then Bad
    else Ready(choice.action.reason.ByFinalResponse?)
  }

  /** A failed response ends the run; an abort that a turn without calls ended with needs no other turn. */
  function TurnEnded(final: bool, message: Message, note: TurnNote): Phase {
    if !message.Assistant? then Bad
    else if Failed(message) then Resting
    else
      var calls := |Calls(message.turn.content)|;
      Between(AfterTurn(final, calls, note.disposition), calls == 0 && note.aborted)
  }

  /**
   * What the context of a run rests on: the messages it started with, or those the host supplied last, and
   * how many messages were finalized by then.
   */
  datatype Basis = Basis(base: seq<Message>, since: nat)

  function Rebase(b: Basis, finals: seq<Message>, e: Event): Basis {
    match e
    case AgentStart(_, initial) => Basis(initial, |finals|)
    case RequestPrepared(_, supplied) => if supplied.Some? then Basis(supplied.value, |finals|) else b
    case _ => b
  }

  /** The context: its basis, and what was finalized since. */
  predicate InContext(context: seq<Message>, b: Basis, finals: seq<Message>) {
    b.since <= |finals| && context == b.base + finals[b.since..]
  }

  /** What an event says of the messages of the run, and of its context, is what the events before it say. */
  predicate Says(e: Event, finals: seq<Message>, b: Basis) {
    match e
    case AgentEnd(messages) => messages == finals
    case HostAsked(ask) => ask.produced == finals
    case Decided(_, choice) => choice.produced == finals
    case Dispatch(_, context, produced, _, _) => produced == finals && InContext(context, b, finals)
    case _ => true
  }

  function StepPhase(p: Phase, finals: seq<Message>, b: Basis, e: Event): Phase {
    if Says(e, finals, b) then NextPhase(p, e) else Bad
  }

  function Check(trace: seq<Event>): Phase {
    if trace == [] then Fresh
    else
      var before := trace[..|trace| - 1];
      StepPhase(Check(before), Finalized(before), BasisOf(before), trace[|trace| - 1])
  }

  /** The messages that were finalized, in order. */
  function Finalized(trace: seq<Event>): seq<Message> {
    if trace == [] then []
    else
      var e := trace[|trace| - 1];
      Finalized(trace[..|trace| - 1]) + if e.MessageEnd? then [e.finalized] else []
  }

  function BasisOf(trace: seq<Event>): Basis {
    if trace == [] then Basis([], 0)
    else
      var before := trace[..|trace| - 1];
      Rebase(BasisOf(before), Finalized(before), trace[|trace| - 1])
  }

  lemma {:induction false} CheckSnoc(trace: seq<Event>, e: Event)
    ensures Check(trace + [e]) == StepPhase(Check(trace), Finalized(trace), BasisOf(trace), e)
    ensures Finalized(trace + [e]) == Finalized(trace) + if e.MessageEnd? then [e.finalized] else []
    ensures BasisOf(trace + [e]) == Rebase(BasisOf(trace), Finalized(trace), e)
  {
    assert (trace + [e])[..|trace|] == trace;
  }

  // ----- Reading the trace as it is written

  /** The marked events, and what the context rests on, which only they change. */
  datatype Marked = Marked(events: seq<Event>, basis: Basis)

  function Mark(marks: Marked, finals: seq<Message>, e: Event): Marked {
    if IsMark()(e) then Marked(marks.events + [e], Rebase(marks.basis, finals, e)) else marks
  }

  /** What a reader of the trace so far knows: the phase, the finalized messages, and the marked events. */
  datatype Monitor = Monitor(phase: Phase, finals: seq<Message>, marks: Marked)

  const NOTHING_READ := Monitor(Fresh, [], Marked([], Basis([], 0)))

  function Advance(m: Monitor, e: Event): Monitor {
    Monitor(StepPhase(m.phase, m.finals, m.marks.basis, e),
            m.finals + (if e.MessageEnd? then [e.finalized] else []),
            Mark(m.marks, m.finals, e))
  }

  /** A trace with what its reader knew before each event, and knows now. */
  datatype Log = Log(trace: seq<Event>, past: seq<Monitor>, now: Monitor)

  const EMPTY_LOG := Log([], [], NOTHING_READ)

  ghost predicate Faithful(log: Log) {
    && |log.past| == |log.trace|
    && (log.trace == [] ==> log.now == NOTHING_READ)
    && (log.trace != [] ==> log.past[0] == NOTHING_READ)
    && (forall n {:trigger log.trace[n]} :: 0 <= n < |log.trace| ==>
          (if n + 1 < |log.trace| then log.past[n + 1] else log.now) == Advance(log.past[n], log.trace[n]))
  }

  function Record(log: Log, e: Event): Log {
    Log(log.trace + [e], log.past + [log.now], Advance(log.now, e))
  }

  lemma {:induction false} RecordKeeps(log: Log, e: Event)
    requires Faithful(log)
    ensures Faithful(Record(log, e))
  {
    var next := Record(log, e);
    forall n | 0 <= n < |next.trace|
      ensures (if n + 1 < |next.trace| then next.past[n + 1] else next.now) == Advance(next.past[n], next.trace[n])
    {
      if n < |log.trace| { assert next.trace[n] == log.trace[n]; }
    }
  }

  /** The start, the choices, what the host supplied, aborts, provider requests and ends of turns. */
  function Marks(trace: seq<Event>): seq<Event> {
    Filter(trace, IsMark())
  }

  function IsMark(): Event -> bool {
    (e: Event) => e.AgentStart? || e.Decided? || e.RequestPrepared? || e.AbortSeen? || e.Dispatch? || e.TurnEnd?
  }

  lemma {:induction false} FaithfulBefore(log: Log)
    requires Faithful(log) && log.trace != []
    ensures var n := |log.trace| - 1;
            Faithful(Log(log.trace[..n], log.past[..n], log.past[n])) && log.now == Advance(log.past[n], log.trace[n])
  {
    var n := |log.trace| - 1;
    var before := Log(log.trace[..n], log.past[..n], log.past[n]);
    forall k | 0 <= k < n
      ensures (if k + 1 < n then before.past[k + 1] else before.now) == Advance(before.past[k], before.trace[k])
    {
      assert log.trace[k] == before.trace[k];
    }
    assert log.trace[n] == log.trace[|log.trace| - 1];
  }

  /** What the whole trace says. */
  function Reading(trace: seq<Event>): Monitor {
    Monitor(Check(trace), Finalized(trace), Marked(Marks(trace), BasisOf(trace)))
  }

  lemma {:induction false} ReadSnoc(trace: seq<Event>, e: Event)
    ensures Reading(trace + [e]) == Advance(Reading(trace), e)
  {
    CheckSnoc(trace, e);
    FilterConcat(trace, [e], IsMark());
  }

  lemma {:induction false} ReadLast(trace: seq<Event>, m: Monitor)
    requires trace != [] && m == Reading(trace[..|trace| - 1])
    ensures Reading(trace) == Advance(m, trace[|trace| - 1])
  {
    var n := |trace| - 1;
    assert trace == trace[..n] + [trace[n]];
    ReadSnoc(trace[..n], trace[n]);
  }

  /** The log's last note is what the whole trace says. */
  lemma {:induction false} FaithfulMeans(log: Log)
    requires Faithful(log)
    ensures log.now == Reading(log.trace)
    decreases |log.trace|
  {
    if log.trace != [] {
      var n := |log.trace| - 1;
      var before := Log(log.trace[..n], log.past[..n], log.past[n]);
      FaithfulBefore(log);
      FaithfulMeans(before);
      ReadLast(log.trace, log.past[n]);
    }
  }

  // ----- What a well-formed trace looks like

  lemma {:induction false} BadStays(trace: seq<Event>, n: nat)
    requires n <= |trace| && Check(trace) != Bad
    ensures Check(trace[..n]) != Bad
    decreases |trace|
  {
    if n < |trace| {
      var m := |trace| - 1;
      BadStays(trace[..m], n);
      assert trace[..m][..n] == trace[..n];
    } else {
      assert trace[..n] == trace;
    }
  }

  /** One step of a well-formed trace. */
  lemma {:induction false} StepAt(trace: seq<Event>, n: nat)
    requires n < |trace| && Check(trace) != Bad
    ensures Check(trace[..n + 1]) != Bad && Says(trace[n], Finalized(trace[..n]), BasisOf(trace[..n]))
    ensures Check(trace[..n + 1]) == NextPhase(Check(trace[..n]), trace[n])
  {
    BadStays(trace, n + 1);
    LastStep(trace[..n + 1], trace[..n], trace[n]);
  }

  lemma {:induction false} LastStep(trace: seq<Event>, before: seq<Event>, e: Event)
    requires trace == before + [e] && Check(trace) != Bad
    ensures Says(e, Finalized(before), BasisOf(before)) && Check(trace) == NextPhase(Check(before), e)
  {
    CheckSnoc(before, e);
  }

  /** The phases a well-formed trace goes through. */
  ghost predicate Walk(trace: seq<Event>, phases: seq<Phase>) {
    && |phases| == |trace| + 1 && phases[0] == Fresh
    && forall n {:trigger trace[n]} :: 0 <= n < |trace| ==> Steps(phases[n], trace[n], phases[n + 1])
  }

  ghost predicate Steps(p: Phase, e: Event, q: Phase) {
    q != Bad && q == NextPhase(p, e)
  }

  /** What is true before and after each event. */
  ghost function Phases(trace: seq<Event>): (phases: seq<Phase>) {
    seq(|trace| + 1, n requires 0 <= n <= |trace| => Check(trace[..n]))
  }

  lemma {:induction false} WalkOf(trace: seq<Event>)
    requires Check(trace) != Bad
    ensures Walk(trace, Phases(trace))
  {
    var phases := Phases(trace);
    assert trace[..0] == [];
    forall n {:trigger trace[n]} | 0 <= n < |trace| ensures Steps(phases[n], trace[n], phases[n + 1]) {
      StepAt(trace, n);
    }
  }

  /** Nothing follows the end. */
  lemma {:induction false} WalkEnds(trace: seq<Event>, phases: seq<Phase>, n: nat)
    requires Walk(trace, phases) && n < |trace|
    ensures trace[n].AgentEnd? ==> n == |trace| - 1
  {
    assert Steps(phases[n], trace[n], phases[n + 1]);
    if n + 1 < |trace| { assert Steps(phases[n + 1], trace[n + 1], phases[n + 2]); }
  }

  /** And nothing starts twice. */
  lemma {:induction false} WalkStarts(trace: seq<Event>, phases: seq<Phase>, n: nat)
    requires Walk(trace, phases) && n < |trace|
    ensures trace[n].AgentStart? <==> n == 0
  {
    assert Steps(phases[n], trace[n], phases[n + 1]);
    if n > 0 { assert Steps(phases[n - 1], trace[n - 1], phases[n]); }
  }

  /** A finished run emits `agent_start` first and only first, and `agent_end` last and only last. */
  lemma {:induction false} StartsAndEndsOnce(trace: seq<Event>)
    requires Check(trace) == Done
    ensures |trace| >= 2
    ensures forall n :: 0 <= n < |trace| ==> (trace[n].AgentStart? <==> n == 0)
    ensures forall n :: 0 <= n < |trace| ==> (trace[n].AgentEnd? <==> n == |trace| - 1)
  {
    WalkOf(trace);
    var phases := Phases(trace);
    assert trace[..|trace|] == trace;
    EndsDone(trace, phases);
    forall n | 0 <= n < |trace| ensures trace[n].AgentStart? <==> n == 0 { WalkStarts(trace, phases, n); }
    forall n | 0 <= n < |trace| ensures trace[n].AgentEnd? <==> n == |trace| - 1 {
      WalkEnds(trace, phases, n);
    }
  }

  lemma {:induction false} EndsDone(trace: seq<Event>, phases: seq<Phase>)
    requires Walk(trace, phases) && phases[|trace|] == Done
    ensures |trace| >= 2 && trace[|trace| - 1].AgentEnd?
  {
    assert trace != [];
    var n := |trace| - 1;
    assert Steps(phases[n], trace[n], phases[n + 1]);
  }

  predicate InTurn(p: Phase) {
    p.TurnOpen? || p.Asked? || p.Streaming? || p.Working? || p.ResultOpen?
    || p.Cancelled? || p.CancelOpen? || p.CancelClosed?
  }

  /** A message is open: it started and did not end. */
  predicate MessageOpen(p: Phase) {
    p.Delivering? || p.Streaming? || p.ResultOpen? || p.CancelOpen?
  }

  /**
   * Turns alternate, deliveries fall between turns, and a message that started ends before the next
   * one, or anything but its own updates, comes.
   */
  lemma {:induction false} WellNested(trace: seq<Event>, n: nat)
    requires n < |trace| && Check(trace) != Bad
    ensures var p, q := Phases(trace)[n], Phases(trace)[n + 1];
            && (trace[n].TurnStart? ==> !InTurn(p) && InTurn(q))
            && (trace[n].TurnEnd? ==> InTurn(p) && !InTurn(q))
            && (!trace[n].TurnStart? && !trace[n].TurnEnd? ==> (InTurn(p) <==> InTurn(q)))
            && (trace[n].DeliveryStart? ==> !InTurn(p) && !MessageOpen(p))
            && (MessageOpen(p) ==> trace[n].MessageEnd? || trace[n].MessageUpdate?)
            && (trace[n].MessageStart? ==> !MessageOpen(p) && MessageOpen(q))
            && (trace[n].MessageEnd? ==> MessageOpen(p) && !MessageOpen(q))
  {
    WalkOf(trace);
    assert Steps(Phases(trace)[n], trace[n], Phases(trace)[n + 1]);
    NestedStep(Phases(trace)[n], trace[n]);
  }

  lemma {:induction false} NestedStep(p: Phase, e: Event)
    requires NextPhase(p, e) != Bad
    ensures var q := NextPhase(p, e);
            && (e.TurnStart? ==> !InTurn(p) && InTurn(q))
            && (e.TurnEnd? ==> InTurn(p) && !InTurn(q))
            && (!e.TurnStart? && !e.TurnEnd? ==> (InTurn(p) <==> InTurn(q)))
            && (e.DeliveryStart? ==> !InTurn(p) && !MessageOpen(p))
            && (MessageOpen(p) ==> e.MessageEnd? || e.MessageUpdate?)
            && (e.MessageStart? ==> !MessageOpen(p) && MessageOpen(q))
            && (e.MessageEnd? ==> MessageOpen(p) && !MessageOpen(q))
  {
  }

  // ----- Tool calls of a turn

  ghost predicate NoTurnEnd(trace: seq<Event>, i: int, j: int) {
    forall n :: 0 <= i < n < j <= |trace| ==> !trace[n].TurnEnd?
  }

  ghost predicate EndsAt(trace: seq<Event>, k: nat, m: int) {
    0 <= m < |trace| && trace[m] == ToolEnd(k)
  }

  /** At `n`, in phase `p`, the call that started at `i` is running, or ended once; it started no second time. */
  ghost predicate Tracked(trace: seq<Event>, p: Phase, i: int, n: int, k: nat)
    requires 0 <= i < n <= |trace|
  {
    && (forall u :: i < u < n ==> trace[u] != ToolStart(k))
    && if p.Working? && k in p.running
       then k !in p.ended && (forall m :: i < m < n ==> !EndsAt(trace, k, m))
       else
         && ((p.Working? && k in p.ended) || (p.ResultOpen? && k in p.ended))
         && exists m :: EndedOnce(trace, i, n, k, m)
  }

  /** Between `i` and `n` the call ended at `m` only, and was updated only before. */
  ghost predicate EndedOnce(trace: seq<Event>, i: int, n: int, k: nat, m: int)
    requires 0 <= i < n <= |trace|
  {
    && i < m < n && EndsAt(trace, k, m)
    && (forall u :: i < u < n && EndsAt(trace, k, u) ==> u == m)
    && (forall u :: i < u < n && trace[u] == ToolUpdate(k) ==> u < m)
  }

  lemma {:induction false} StillEnded(trace: seq<Event>, i: nat, n: nat, k: nat, m: int)
    requires i < n < |trace| && EndedOnce(trace, i, n, k, m) && trace[n] != ToolEnd(k) && trace[n] != ToolUpdate(k)
    ensures EndedOnce(trace, i, n + 1, k, m)
  {
  }

  lemma {:induction false} EndsNow(trace: seq<Event>, i: nat, n: nat, k: nat)
    requires i < n < |trace| && (forall m :: i < m < n ==> !EndsAt(trace, k, m)) && trace[n] == ToolEnd(k)
    ensures EndedOnce(trace, i, n + 1, k, n)
  {
    assert EndsAt(trace, k, n);
  }

  /** What one event does to a call that is running, or that ended. */
  lemma {:induction false} CallPhase(p: Phase, e: Event, k: nat)
    requires NextPhase(p, e) != Bad && !e.TurnEnd?
    requires (p.Working? && (k in p.running || k in p.ended)) || (p.ResultOpen? && k in p.ended)
    ensures var q := NextPhase(p, e);
            && e != ToolStart(k)
            && (p.Working? && k in p.running && e != ToolEnd(k) ==>
                q.Working? && k in q.running
                && (k !in p.ended ==> k !in q.ended))
            && (p.Working? && k in p.running && e == ToolEnd(k) ==> q.Working? && k !in q.running && k in q.ended)
            && (p.Working? && k !in p.running ==>
                e != ToolEnd(k) && e != ToolUpdate(k)
                && ((q.Working? && k !in q.running && k in q.ended) || (q.ResultOpen? && k in q.ended)))
            && (p.ResultOpen? ==>
                e != ToolEnd(k) && e != ToolUpdate(k) && q.Working? && k !in q.running
                && k in q.ended)
  {
  }

  lemma {:induction false} TrackStep(trace: seq<Event>, p: Phase, q: Phase, i: nat, n: nat, k: nat)
    requires i < n < |trace| && !trace[n].TurnEnd? && Tracked(trace, p, i, n, k)
    requires NextPhase(p, trace[n]) != Bad && q == NextPhase(p, trace[n])
    ensures Tracked(trace, q, i, n + 1, k)
  {
    CallPhase(p, trace[n], k);
    if p.Working? && k in p.running {
      if trace[n] == ToolEnd(k) {
        EndsNow(trace, i, n, k);
      }
    } else {
      var m :| EndedOnce(trace, i, n, k, m);
      StillEnded(trace, i, n, k, m);
    }
  }

  lemma {:induction false} TrackTool(trace: seq<Event>, phases: seq<Phase>, i: nat, n: nat, k: nat)
    requires i < n <= |trace| && Walk(trace, phases) && trace[i] == ToolStart(k) && NoTurnEnd(trace, i, n)
    ensures Tracked(trace, phases[n], i, n, k)
    decreases n
  {
    assert Steps(phases[n - 1], trace[n - 1], phases[n]);
    if n > i + 1 {
      TrackTool(trace, phases, i, n - 1, k);
      TrackStep(trace, phases[n - 1], phases[n], i, n - 1, k);
    }
  }

  /**
   * A call that started ends exactly once before its turn does, starts no second time, and is updated
   * only before its end.
   */
  lemma {:induction false} StartedCallEndsOnce(trace: seq<Event>, i: nat, j: nat, k: nat)
    requires i < j < |trace| && Check(trace) != Bad
    requires trace[i] == ToolStart(k) && trace[j].TurnEnd? && NoTurnEnd(trace, i, j)
    ensures forall u :: i < u < j ==> trace[u] != ToolStart(k)
    ensures exists m :: EndedOnce(trace, i, j, k, m)
  {
    WalkOf(trace);
    WalkEndsOnce(trace, Phases(trace), i, j, k);
  }

  lemma {:induction false} WalkEndsOnce(trace: seq<Event>, phases: seq<Phase>, i: nat, j: nat, k: nat)
    requires i < j < |trace| && Walk(trace, phases)
    requires trace[i] == ToolStart(k) && trace[j].TurnEnd? && NoTurnEnd(trace, i, j)
    ensures forall u :: i < u < j ==> trace[u] != ToolStart(k)
    ensures exists m :: EndedOnce(trace, i, j, k, m)
  {
    TrackTool(trace, phases, i, j, k);
    assert Steps(phases[j], trace[j], phases[j + 1]);
    NothingRuns(phases[j], trace[j]);
  }

  lemma {:induction false} NothingRuns(p: Phase, e: Event)
    requires e.TurnEnd? && NextPhase(p, e) != Bad
    ensures p.Working? ==> p.running == {}
  {
  }

  // ----- Final responses

  /** Only a final response can be asked for from here, if any request can. */
  predicate OnlyFinal(p: Phase) {
    match p
    case Between(next, _) => Must(next)
    case Choosing(ask) => Must(ask.next)
    case Delivering(ask) => Must(ask.next)
    case Ready(final) => final
    case Primed(final) => final
    case TurnOpen(final) => final
    case _ => p.Leaving? || p.Cancelled? || p.CancelOpen? || p.CancelClosed? || p.Resting? || p.Done?
  }

  lemma {:induction false} OnlyFinalStep(p: Phase, e: Event)
    requires OnlyFinal(p) && NextPhase(p, e) != Bad
    ensures if e.Dispatch? then e.final else OnlyFinal(NextPhase(p, e))
  {
  }

  lemma {:induction false} FinalBatchStep(p: Phase, e: Event)
    requires e.TurnEnd? && e.note.disposition.FinalResponse? && NextPhase(p, e) != Bad
    ensures OnlyFinal(NextPhase(p, e))
  {
  }

  lemma {:induction false} WalkOnlyFinal(trace: seq<Event>, phases: seq<Phase>, i: nat, n: nat)
    requires Walk(trace, phases) && i <= n <= |trace| && OnlyFinal(phases[i])
    requires forall k :: i <= k < n ==> !trace[k].Dispatch?
    ensures OnlyFinal(phases[n])
    decreases n
  {
    if i < n {
      WalkOnlyFinal(trace, phases, i, n - 1);
      assert Steps(phases[n - 1], trace[n - 1], phases[n]);
      OnlyFinalStep(phases[n - 1], trace[n - 1]);
    }
  }

  /** Whatever comes in between, the first request after a final-response batch is a final response. */
  lemma {:induction false} NextRequestIsFinal(trace: seq<Event>, i: nat, j: nat)
    requires i < j < |trace| && Check(trace) != Bad
    requires trace[i].TurnEnd? && trace[i].note.disposition.FinalResponse? && trace[j].Dispatch?
    requires forall n :: i < n < j ==> !trace[n].Dispatch?
    ensures trace[j].final
  {
    WalkOf(trace);
    var phases := Phases(trace);
    assert Steps(phases[i], trace[i], phases[i + 1]);
    FinalBatchStep(phases[i], trace[i]);
    WalkOnlyFinal(trace, phases, i + 1, j);
    assert Steps(phases[j], trace[j], phases[j + 1]);
    OnlyFinalStep(phases[j], trace[j]);
  }

  // ----- What the host is asked with

  ghost predicate SameNext(p: Phase, next: Next) {
    match p
    case Between(n, _) => n == next
    case Choosing(ask) => ask.next == next
    case Delivering(ask) => ask.next == next
    case _ => !p.Fresh?
  }

  lemma {:induction false} SameNextStep(p: Phase, e: Event, next: Next)
    requires SameNext(p, next) && !e.TurnEnd? && NextPhase(p, e) != Bad
    ensures SameNext(NextPhase(p, e), next) && (e.HostAsked? ==> e.ask.next == next)
  {
  }

  lemma {:induction false} NextKept(trace: seq<Event>, phases: seq<Phase>, i: nat, n: nat, next: Next)
    requires Walk(trace, phases) && i <= n <= |trace| && SameNext(phases[i], next)
    requires forall k :: i <= k < n ==> !trace[k].TurnEnd?
    ensures SameNext(phases[n], next)
    decreases n
  {
    if i < n {
      NextKept(trace, phases, i, n - 1, next);
      assert Steps(phases[n - 1], trace[n - 1], phases[n]);
      SameNextStep(phases[n - 1], trace[n - 1], next);
    }
  }

  /** What the host is asked with first: the action the run started with. */
  lemma {:induction false} FirstAsk(trace: seq<Event>, n: nat)
    requires n < |trace| && Check(trace) != Bad && trace[n].HostAsked?
    requires forall k :: 0 <= k < n ==> !trace[k].TurnEnd?
    ensures n == 1 && trace[0].AgentStart? && trace[1].ask == Ask(trace[1].ask.at, Next(Provider, trace[0].first), [])
  {
    WalkOf(trace);
    WalkFirstAsk(trace, Phases(trace), n);
    StepAt(trace, 1);
    NothingFinal(trace[..1]);
  }

  lemma {:induction false} NothingFinal(trace: seq<Event>)
    requires |trace| == 1 && !trace[0].MessageEnd?
    ensures Finalized(trace) == []
  {
    assert trace[..0] == [];
  }

  lemma {:induction false} BoundaryStep(p: Phase, e: Event)
    requires NextPhase(p, e).Between?
    ensures e.AgentStart? || e.TurnEnd?
  {
  }

  lemma {:induction false} WalkFirstAsk(trace: seq<Event>, phases: seq<Phase>, n: nat)
    requires n < |trace| && Walk(trace, phases) && trace[n].HostAsked?
    requires forall k :: 0 <= k < n ==> !trace[k].TurnEnd?
    ensures n == 1 && trace[0].AgentStart? && trace[n].ask.next == Next(Provider, trace[0].first)
  {
    assert Steps(phases[n], trace[n], phases[n + 1]);
    assert phases[n].Between?;
    assert Steps(phases[n - 1], trace[n - 1], phases[n]);
    BoundaryStep(phases[n - 1], trace[n - 1]);
    WalkStarts(trace, phases, n - 1);
  }

  /** And after a turn: what the turn's request, calls and disposition lead to. */
  lemma {:induction false} AskAfterTurn(trace: seq<Event>, i: nat, j: nat, n: nat)
    requires i < j < n < |trace| && Check(trace) != Bad && trace[n].HostAsked?
    requires trace[i].Dispatch? && trace[j].TurnEnd? && NoTurnEnd(trace, i, j) && NoTurnEnd(trace, j, n)
    ensures trace[j].message.Assistant? && !Failed(trace[j].message)
    ensures trace[n].ask.next ==
            AfterTurn(trace[i].final, |Calls(trace[j].message.turn.content)|, trace[j].note.disposition)
  {
    WalkOf(trace);
    WalkAfterTurn(trace, Phases(trace), i, j, n);
  }

  lemma {:induction false} WalkAfterTurn(trace: seq<Event>, phases: seq<Phase>, i: nat, j: nat, n: nat)
    requires i < j < n < |trace| && Walk(trace, phases) && trace[n].HostAsked?
    requires trace[i].Dispatch? && trace[j].TurnEnd? && NoTurnEnd(trace, i, j) && NoTurnEnd(trace, j, n)
    ensures trace[j].message.Assistant? && !Failed(trace[j].message)
    ensures trace[n].ask.next ==
            AfterTurn(trace[i].final, |Calls(trace[j].message.turn.content)|, trace[j].note.disposition)
  {
    assert Steps(phases[i], trace[i], phases[i + 1]);
    RequestStep(phases[i], trace[i]);
    WalkTurn(trace, phases, i + 1, j, trace[i].final);
    assert Steps(phases[j], trace[j], phases[j + 1]);
    TurnEndStep(phases[j], trace[j], trace[i].final);
    assert Steps(phases[n], trace[n], phases[n + 1]);
    if phases[j + 1].Resting? {
      RestsToTheEnd(trace, phases, j + 1, n);
      RestStep(phases[n], trace[n]);
      assert false;
    }
    NextKept(trace, phases, j + 1, n, phases[j + 1].next);
    SameNextStep(phases[n], trace[n], phases[j + 1].next);
  }

  /** The turn in progress was requested, as a final response or not. */
  predicate Requested(p: Phase, final: bool) {
    (p.Asked? || p.Streaming? || p.Working? || p.ResultOpen?) && p.final == final
  }

  lemma {:induction false} RequestStep(p: Phase, e: Event)
    requires e.Dispatch? && NextPhase(p, e) != Bad
    ensures Requested(NextPhase(p, e), e.final) && p == TurnOpen(e.final)
  {
  }

  lemma {:induction false} RequestedStep(p: Phase, e: Event, final: bool)
    requires Requested(p, final) && NextPhase(p, e) != Bad && !e.TurnEnd?
    ensures Requested(NextPhase(p, e), final)
  {
  }

  lemma {:induction false} WalkTurn(trace: seq<Event>, phases: seq<Phase>, i: nat, n: nat, final: bool)
    requires Walk(trace, phases) && i <= n <= |trace| && Requested(phases[i], final)
    requires forall k :: i <= k < n ==> !trace[k].TurnEnd?
    ensures Requested(phases[n], final)
    decreases n
  {
    if i < n {
      WalkTurn(trace, phases, i, n - 1, final);
      assert Steps(phases[n - 1], trace[n - 1], phases[n]);
      RequestedStep(phases[n - 1], trace[n - 1], final);
    }
  }

  lemma {:induction false} FinalRunsNoTool(p: Phase, e: Event)
    requires Requested(p, true) && NextPhase(p, e) != Bad
    ensures !e.ToolStart?
  {
  }

  /** A final-response turn starts no tool. */
  lemma {:induction false} FinalTurnRunsNoTool(trace: seq<Event>, i: nat, j: nat)
    requires i < j < |trace| && Check(trace) != Bad && NoTurnEnd(trace, i, j)
    requires trace[i].Dispatch? && trace[i].final
    ensures !trace[j].ToolStart?
  {
    WalkOf(trace);
    var phases := Phases(trace);
    assert Steps(phases[i], trace[i], phases[i + 1]);
    RequestStep(phases[i], trace[i]);
    WalkTurn(trace, phases, i + 1, j, true);
    assert Steps(phases[j], trace[j], phases[j + 1]);
    FinalRunsNoTool(phases[j], trace[j]);
  }

  lemma {:induction false} TurnEndStep(p: Phase, e: Event, final: bool)
    requires e.TurnEnd? && Requested(p, final) && NextPhase(p, e) != Bad
    ensures e.message.Assistant? && (NextPhase(p, e).Resting? <==> Failed(e.message))
    ensures !Failed(e.message) ==> NextPhase(p, e).Between?
    ensures !Failed(e.message) ==>
        NextPhase(p, e).next == AfterTurn(final, |Calls(e.message.turn.content)|, e.note.disposition)
  {
  }

  lemma {:induction false} RestStep(p: Phase, e: Event)
    requires (p.Resting? || p.Done?) && NextPhase(p, e) != Bad
    ensures NextPhase(p, e).Done? && e.AgentEnd?
  {
  }

  lemma {:induction false} RestsToTheEnd(trace: seq<Event>, phases: seq<Phase>, i: nat, n: nat)
    requires Walk(trace, phases) && i <= n <= |trace| && phases[i].Resting?
    ensures phases[n].Resting? || phases[n].Done?
    decreases n
  {
    if i < n {
      RestsToTheEnd(trace, phases, i, n - 1);
      assert Steps(phases[n - 1], trace[n - 1], phases[n]);
      RestStep(phases[n - 1], trace[n - 1]);
    }
  }

  // ----- What a request goes back to

  /**
   * What a request says the run produced is what was finalized before it, and its context is that on top
   * of the initial messages, or of those the host supplied last.
   */
  lemma {:induction false} RequestSays(trace: seq<Event>, n: nat)
    requires n < |trace| && Check(trace) != Bad && trace[n].Dispatch?
    ensures trace[n].produced == Finalized(trace[..n])
    ensures InContext(trace[n].context, BasisOf(trace[..n]), trace[n].produced)
  {
    StepAt(trace, n);
  }

  lemma {:induction false} BasisStep(trace: seq<Event>, n: nat)
    requires n < |trace|
    ensures BasisOf(trace[..n + 1]) == Rebase(BasisOf(trace[..n]), Finalized(trace[..n]), trace[n])
    ensures !trace[n].MessageEnd? ==> Finalized(trace[..n + 1]) == Finalized(trace[..n])
  {
    assert trace[..n + 1][..n] == trace[..n];
  }

  /** The basis of a run whose host supplies nothing. */
  lemma {:induction false} InitialBasis(trace: seq<Event>, n: nat)
    requires 0 < n <= |trace| && trace[0].AgentStart? && forall k :: 0 < k < n ==> !trace[k].AgentStart?
    requires forall k :: 0 <= k < n && trace[k].RequestPrepared? ==> trace[k].supplied.None?
    ensures BasisOf(trace[..n]) == Basis(trace[0].initial, 0)
    decreases n
  {
    BasisStep(trace, n - 1);
    if n > 1 { InitialBasis(trace, n - 1); }
  }

  lemma {:induction false} SuppliedBasis(trace: seq<Event>, n: nat)
    requires 1 < n <= |trace| && trace[n - 1].TurnStart? && trace[n - 2].RequestPrepared?
    requires trace[n - 2].supplied.Some?
    ensures BasisOf(trace[..n]) == Basis(trace[n - 2].supplied.value, |Finalized(trace[..n])|)
  {
    BasisStep(trace, n - 2);
    BasisStep(trace, n - 1);
  }

  /** A request is prepared just before its turn starts; if messages were supplied then, it finds exactly these. */
  lemma {:induction false} SuppliedContext(trace: seq<Event>, n: nat)
    requires 1 < n < |trace| && Check(trace) != Bad && trace[n].Dispatch?
    ensures trace[n - 1].TurnStart? && trace[n - 2].RequestPrepared?
    ensures trace[n - 2].supplied.Some? ==> trace[n].context == trace[n - 2].supplied.value
  {
    RequestSays(trace, n);
    WalkOf(trace);
    WalkPrepared(trace, Phases(trace), n);
    if trace[n - 2].supplied.Some? { SuppliedBasis(trace, n); }
  }

  lemma {:induction false} WalkPrepared(trace: seq<Event>, phases: seq<Phase>, n: nat)
    requires 1 < n < |trace| && Walk(trace, phases) && trace[n].Dispatch?
    ensures trace[n - 1].TurnStart? && trace[n - 2].RequestPrepared?
  {
    assert Steps(phases[n], trace[n], phases[n + 1]);
    assert Steps(phases[n - 1], trace[n - 1], phases[n]);
    assert Steps(phases[n - 2], trace[n - 2], phases[n - 1]);
  }

  /** Nothing but deliveries comes between two positions. */
  ghost predicate OnlyDeliveries(trace: seq<Event>, i: int, j: int) {
    forall k :: 0 <= i < k < j <= |trace| ==>
      trace[k].DeliveryStart? || trace[k].MessageStart? || trace[k].MessageEnd?
  }

  /** The request at `n` goes back to the choice at `j`, and that to the question at `i`. */
  ghost predicate ChosenBy(trace: seq<Event>, n: int, i: int, j: int, final: bool) {
    && 0 <= i < j < n <= |trace| && trace[i].HostAsked? && trace[j].Decided? && trace[j].ask == trace[i].ask
    && OnlyDeliveries(trace, i, j)
    && LeadsOn(trace[j].choice) && trace[j].choice.action.reason.ByFinalResponse? == final
    && (forall k :: j < k < n ==> trace[k].RequestPrepared? || trace[k].TurnStart?)
  }

  ghost predicate OpenAsk(trace: seq<Event>, n: int, i: int, ask: Ask) {
    0 <= i < n <= |trace| && trace[i] == HostAsked(ask) && OnlyDeliveries(trace, i, n)
  }

  /** Where the question and the choice of the phase are. */
  ghost predicate Traced(trace: seq<Event>, p: Phase, n: nat) {
    match p
    case Choosing(ask) => exists i :: OpenAsk(trace, n, i, ask)
    case Delivering(ask) => exists i :: OpenAsk(trace, n, i, ask)
    case Ready(final) => exists i, j :: ChosenBy(trace, n, i, j, final)
    case Primed(final) => exists i, j :: ChosenBy(trace, n, i, j, final)
    case TurnOpen(final) => exists i, j :: ChosenBy(trace, n, i, j, final)
    case _ => true
  }

  lemma {:induction false} TracedNext(trace: seq<Event>, p: Phase, n: nat)
    requires n < |trace| && Traced(trace, p, n) && NextPhase(p, trace[n]) != Bad
    ensures Traced(trace, NextPhase(p, trace[n]), n + 1)
  {
    var q := NextPhase(p, trace[n]);
    if q.Choosing? || q.Delivering? {
      if p.Between? {
        assert OpenAsk(trace, n + 1, n, q.ask);
      } else {
        var i :| OpenAsk(trace, n, i, q.ask);
        assert OpenAsk(trace, n + 1, i, q.ask);
      }
    } else if q.Ready? {
      var i :| OpenAsk(trace, n, i, p.ask);
      assert ChosenBy(trace, n + 1, i, n, q.final);
    } else if q.Primed? || q.TurnOpen? {
      var i, j :| ChosenBy(trace, n, i, j, p.final);
      assert ChosenBy(trace, n + 1, i, j, p.final);
    }
  }

  lemma {:induction false} TracedAlways(trace: seq<Event>, phases: seq<Phase>, n: nat)
    requires n <= |trace| && Walk(trace, phases)
    ensures Traced(trace, phases[n], n)
    decreases n
  {
    if n > 0 {
      TracedAlways(trace, phases, n - 1);
      assert Steps(phases[n - 1], trace[n - 1], phases[n]);
      TracedNext(trace, phases[n - 1], n - 1);
    }
  }

  /**
   * Every request goes back to a choice that led to it, and the choice to the question it answers: only
   * deliveries come between the two, and nothing is finalized after the choice.
   */
  lemma {:induction false} RequestIsChosen(trace: seq<Event>, n: nat)
    requires n < |trace| && Check(trace) != Bad && trace[n].Dispatch?
    ensures exists i, j :: ChosenBy(trace, n, i, j, trace[n].final) && trace[n].produced == trace[j].choice.produced
  {
    WalkOf(trace);
    var i, j := WalkChosen(trace, Phases(trace), n);
    SaidTheSame(trace, j, n);
  }

  lemma {:induction false} WalkChosen(trace: seq<Event>, phases: seq<Phase>, n: nat) returns (i: nat, j: nat)
    requires n < |trace| && Walk(trace, phases) && trace[n].Dispatch?
    ensures ChosenBy(trace, n, i, j, trace[n].final)
  {
    assert Steps(phases[n], trace[n], phases[n + 1]);
    RequestStep(phases[n], trace[n]);
    TracedAlways(trace, phases, n);
    i, j :| ChosenBy(trace, n, i, j, trace[n].final);
  }

  lemma {:induction false} SaidTheSame(trace: seq<Event>, j: nat, n: nat)
    requires j < n < |trace| && Check(trace) != Bad && trace[j].Decided? && trace[n].Dispatch?
    requires forall k :: j < k < n ==> trace[k].RequestPrepared? || trace[k].TurnStart?
    ensures trace[n].produced == trace[j].choice.produced
  {
    RequestSays(trace, n);
    ChoiceSays(trace, j);
    SameFinals(trace, j, n);
  }

  lemma {:induction false} ChoiceSays(trace: seq<Event>, n: nat)
    requires n < |trace| && Check(trace) != Bad && trace[n].Decided?
    ensures trace[n].choice.produced == Finalized(trace[..n])
  {
    StepAt(trace, n);
  }

  lemma {:induction false} SameFinals(trace: seq<Event>, j: nat, n: nat)
    requires j <= n <= |trace| && forall k :: j <= k < n ==> !trace[k].MessageEnd?
    ensures Finalized(trace[..n]) == Finalized(trace[..j])
    decreases n
  {
    if j < n {
      SameFinals(trace, j, n - 1);
      assert trace[..n][..n - 1] == trace[..n - 1];
    }
  }

  // ----- Aborts

  /** A cancelled turn from `n` on: one message, no results, and the end of the run. */
  ghost predicate CancelledTurn(trace: seq<Event>, n: nat) {
    && n + 4 == |trace| - 1
    && trace[n].TurnStart? && trace[n + 1].MessageStart? && trace[n + 2].MessageEnd?
    && trace[n + 3].TurnEnd? && trace[n + 3].results == [] && trace[n + 4].AgentEnd?
  }

  /** A run may say nothing of the abort before its first turn, and after a turn that saw it and called no tool. */
  predicate Silent(p: Phase) { p.Between? && p.silent }

  /**
   * What a finished run does once it saw an abort: nothing where it may be silent, the rest of the turn
   * that was open, and a cancelled turn everywhere else.
   */
  lemma {:induction false} AbortCloses(trace: seq<Event>, n: nat)
    requires n < |trace| && Check(trace) == Done && trace[n].AbortSeen?
    ensures var p := Phases(trace)[n];
            if Silent(p) then n + 1 == |trace| - 1
            else if p.TurnOpen? then 0 < n && trace[n - 1].TurnStart? && n + 4 == |trace| - 1
            else CancelledTurn(trace, n + 1)
  {
    WalkOf(trace);
    assert trace[..|trace|] == trace;
    WalkAbortCloses(trace, Phases(trace), n);
  }

  lemma {:induction false} WalkAbortCloses(trace: seq<Event>, phases: seq<Phase>, n: nat)
    requires n < |trace| && Walk(trace, phases) && phases[|trace|] == Done && trace[n].AbortSeen?
    ensures var p := phases[n];
            if Silent(p) then n + 1 == |trace| - 1
            else if p.TurnOpen? then 0 < n && trace[n - 1].TurnStart? && n + 4 == |trace| - 1
            else CancelledTurn(trace, n + 1)
  {
    var p := phases[n];
    assert Steps(phases[n], trace[n], phases[n + 1]);
    if p.TurnOpen? { assert Steps(phases[n - 1], trace[n - 1], phases[n]); }
    if Silent(p) {
      RestIsLast(trace, phases, n + 1);
    } else if p.TurnOpen? {
      CancelIsLast(trace, phases, n + 1);
    } else {
      assert Steps(phases[n + 1], trace[n + 1], phases[n + 2]);
      CancelIsLast(trace, phases, n + 2);
    }
  }

  lemma {:induction false} RestIsLast(trace: seq<Event>, phases: seq<Phase>, n: nat)
    requires Walk(trace, phases) && phases[|trace|] == Done && n <= |trace| && phases[n].Resting?
    ensures n == |trace| - 1 && trace[n].AgentEnd?
  {
    assert Steps(phases[n], trace[n], phases[n + 1]);
    WalkEnds(trace, phases, n);
  }

  lemma {:induction false} CancelIsLast(trace: seq<Event>, phases: seq<Phase>, n: nat)
    requires Walk(trace, phases) && phases[|trace|] == Done && n <= |trace| && phases[n].Cancelled?
    ensures n + 3 == |trace| - 1 && trace[n].MessageStart? && trace[n + 1].MessageEnd?
    ensures trace[n + 2].TurnEnd? && trace[n + 2].results == [] && trace[n + 3].AgentEnd?
  {
    assert Steps(phases[n], trace[n], phases[n + 1]);
    assert Steps(phases[n + 1], trace[n + 1], phases[n + 2]);
    assert Steps(phases[n + 2], trace[n + 2], phases[n + 3]);
    RestIsLast(trace, phases, n + 3);
  }
}
