/**
 * The agent request loop (packages/agent/src/agent-loop.ts) against an arbitrary environment: abort may
 * arrive at any await, and the host, its listeners, the provider and the tools answer as they like.
 */
module AgentLoop {
  import opened Prelude
  import opened ReplayPolicy
  import opened ReplayMeaning
  import opened AgentTrace

  // ----- The environment

  datatype DeliveryOutcome = DeliveryCommitted | DeliveryRevoked | DeliveryRetained | DeliveryFailed

  /** A provider response: it may announce a partial message, then updates, and ends with the final turn or throws. */
  datatype Response = Response(start: Option<Turn>, updates: seq<Turn>, final: Option<Turn>)

  datatype Preparation = Immediate(outcome: ToolOutcome) | Prepared
  datatype ToolRun = ToolRun(updates: nat, outcome: ToolOutcome)

  /** What happens while tools run side by side: one of them reports, returns, or has its end emitted. */
  datatype ToolAction = Report(i: nat) | Return(i: nat, outcome: ToolOutcome) | Finish(i: nat)

  /** Every answer of the environment is a function of the moment it is asked at. */
  datatype Env = Env(
    aborted: nat -> bool,
    nextAction: nat -> Option<Action>,
    beginDelivery: nat -> DeliveryOutcome,
    replacement: nat -> Option<Message>,
    prepareRequest: nat -> Option<seq<Message>>,
    toLlm: (nat, seq<Message>) -> seq<Message>,
    feedback: Feedback,
    respond: nat -> Response,
    sequential: nat -> bool,
    prepare: (nat, ToolCall) -> Preparation,
    execute: (nat, ToolCall) -> ToolRun,
    schedule: nat -> seq<ToolAction>)

  /** An abort is not taken back. */
  ghost predicate ValidEnv(env: Env) {
    forall t, u :: 0 <= t <= u && env.aborted(t) ==> env.aborted(u)
  }

  /** Listeners replace no message. */
  ghost predicate NoReplacement(env: Env) {
    forall t :: env.replacement(t).None?
  }

  /**
   * Nothing the loop throws on: listeners replace nothing, no delivery is retained or fails, every response
   * comes to its end, and what is sent to the provider does not end with an assistant message.
   */
  ghost predicate NeverThrows(env: Env) {
    && NoReplacement(env)
    && (forall t :: !Stops(env, t))
    && (forall t :: env.respond(t).final.Some?)
    && (forall t, ms :: EndsForProvider(env.toLlm(t, ms)))
  }

  predicate EndsForProvider(ms: seq<Message>) {
    |ms| > 0 ==> !ms[|ms| - 1].Assistant?
  }

  /** `prepareRequest` supplies no context. */
  ghost predicate NoOverride(env: Env) {
    forall t :: env.prepareRequest(t).None?
  }

  ghost predicate AllUsers(ms: seq<Message>) {
    forall i :: 0 <= i < |ms| ==> ms[i].User?
  }

  ghost predicate UserAction(a: Action) {
    a.Request? ==> forall i :: 0 <= i < |a.deliveries| ==> AllUsers(a.deliveries[i])
  }

  /** Deliveries are user messages, listeners replace nothing, and each turn's call ids are distinct. */
  ghost predicate Tame(env: Env) {
    && NoReplacement(env)
    && (forall t :: env.nextAction(t).Some? ==> UserAction(env.nextAction(t).value))
    && (forall t :: env.respond(t).final.Some? ==> DistinctCalls(Calls(env.respond(t).final.value.content)))
  }

  // ----- The state of a run

  /** `produced` is the source's `newMessages`. */
  datatype State = State(clock: nat, log: Log, context: seq<Message>, produced: seq<Message>)

  datatype Flow = Proceed | Threw | Hung

  /** One event. */
  method Emit(s: State, e: Event) returns (r: State)
    requires Faithful(s.log)
    ensures Faithful(r.log) && r.log == Record(s.log, e)
    ensures r.context == s.context && r.produced == s.produced && r.clock == s.clock + 1
  {
    RecordKeeps(s.log, e);
    r := s.(clock := s.clock + 1, log := Record(s.log, e));
  }

  function Tick(s: State): State {
    s.(clock := s.clock + 1)
  }

  predicate SameRole(a: Message, b: Message) {
    (a.User? <==> b.User?) && (a.Assistant? <==> b.Assistant?)
  }

  /**
   * The context and the action a run starts from, and whether its transcript is claimed to stay as the
   * replay policy wants it.
   */
  datatype Claim = Claim(initial: seq<Message>, first: Action, tame: bool)

  ghost predicate Justified(env: Env, c: Claim) {
    c.tame ==> Tame(env)
  }

  /**
   * What a request found and sent: a transcript the replay policy leaves alone, and what the policy makes of
   * the converted context, which does not end with an assistant message.
   */
  ghost predicate GoodRequest(env: Env, c: Claim, e: Event) {
    && e.Dispatch? && SentAsConverted(env, e.context, e.at, e.sent)
    && (c.tame ==> Replayable(e.produced))
  }

  ghost predicate SentAsConverted(env: Env, context: seq<Message>, at: nat, sent: seq<Message>) {
    EndsForProvider(env.toLlm(at, context)) && sent == Replay(env.feedback, env.toLlm(at, context))
  }

  /** What a turn left: results that answer its calls, as its tools said. */
  ghost predicate GoodTurn(env: Env, message: Message, results: seq<Message>, note: TurnNote) {
    && message.Assistant? && note.aborted == env.aborted(note.at)
    && if Failed(message) then results == [] && note.outcomes == [] && note.batch.NoTools? && note.disposition.Continue?
       else
         && InOrder(env, CallsOf(message), results, note.at)
         && Reports(env, CallsOf(message), note.outcomes, results)
         && Came(env, CallsOf(message), note.batch, note.outcomes, note.disposition)
         && Timely(note.batch, 0, note.at)
  }

  /** What the host answers to a question: the default action stands unless it says otherwise. */
  function HostAnswer(env: Env, ask: Ask): Action {
    var answer := env.nextAction(ask.at);
    if answer.Some? then answer.value else ask.next.default
  }

  /** The action taken: a host that owes a final response can only pause instead. */
  function Decision(env: Env, ask: Ask): Action {
    var answer := HostAnswer(env, ask);
    if Must(ask.next) && !answer.Pause? then Request(ByFinalResponse, []) else answer
  }

  /**
   * The choice is what the host decided, and what the run produced since it was asked is exactly the
   * deliveries of the action that were committed when they were reached.
   */
  ghost predicate GoodChoice(env: Env, ask: Ask, choice: Choice) {
    && choice.action == Decision(env, ask)
    && var deliveries := DeliveriesOf(choice.action);
       && DealtWith(env, deliveries, choice.asked, choice.picked, ask.at, choice.at)
       && |choice.asked| == |deliveries|
       && ask.produced <= choice.produced
       && (NoReplacement(env) ==> choice.produced == ask.produced + Delivered(deliveries, choice.picked))
  }

  function DeliveriesOf(action: Action): seq<seq<Message>> {
    if action.Request? then action.deliveries else []
  }

  ghost predicate GoodMark(env: Env, c: Claim, e: Event) {
    match e
    case TurnEnd(message, results, note) => GoodTurn(env, message, results, note)
    case Decided(ask, choice) => GoodChoice(env, ask, choice)
    case AbortSeen(at) => env.aborted(at)
    case AgentStart(first, initial) => first == c.first && initial == c.initial
    case RequestPrepared(at, supplied) => supplied == env.prepareRequest(at)
    case _ => GoodRequest(env, c, e)
  }

  ghost predicate GoodMarks(env: Env, c: Claim, marks: Marked) {
    && AgentStart(c.first, c.initial) in marks.events
    && forall e :: e in marks.events ==> GoodMark(env, c, e)
  }

  /** The context of the state is the one the log tells. */
  ghost predicate InPlace(context: seq<Message>, m: Monitor) {
    InContext(context, m.marks.basis, m.finals)
  }

  lemma {:induction false} ContextGrows(context: seq<Message>, b: Basis, finals: seq<Message>, added: seq<Message>)
    requires InContext(context, b, finals)
    ensures InContext(context + added, b, finals + added)
  {
  }

  /** The run stands between turns, in the given phase. */
  ghost predicate AtBoundary(env: Env, c: Claim, s: State, p: Phase) {
    && Faithful(s.log) && s.log.now.phase == p
    && s.produced == s.log.now.finals
    && InPlace(s.context, s.log.now)
    && (c.tame ==> Replayable(s.produced))
    && GoodMarks(env, c, s.log.now.marks)
  }

  /** The run returned normally. */
  ghost predicate Returned(env: Env, c: Claim, s: State) {
    && Faithful(s.log) && s.log.now.phase == Done
    && s.produced == s.log.now.finals
    && |s.log.trace| > 0 && s.log.trace[|s.log.trace| - 1] == AgentEnd(s.produced)
    && GoodMarks(env, c, s.log.now.marks)
  }

  /** The run was cut short by an exception or never came back: what it emitted is still in order. */
  ghost predicate CutShort(env: Env, c: Claim, s: State) {
    Faithful(s.log) && s.log.now.phase != Bad && GoodMarks(env, c, s.log.now.marks)
  }

  // ----- Messages

  /** A completed message: started, ended, and finalized by its listeners. */
  method EmitCompletedMessage(env: Env, s: State, message: Message) returns (r: State, finalized: Message, flow: Flow)
    requires Faithful(s.log)
    requires s.log.now.phase.Choosing? || (s.log.now.phase.Working? && s.log.now.phase.running == {})
    ensures Faithful(r.log) && r.log.now.phase == s.log.now.phase && r.log.now.marks == s.log.now.marks
    ensures r.context == s.context && r.produced == s.produced && r.clock > s.clock && !flow.Hung?
    ensures flow.Proceed? ==> r.log.now.finals == s.log.now.finals + [finalized]
    ensures SameRole(message, finalized) && (NoReplacement(env) ==> flow.Proceed? && finalized == message)
  {
    r := Emit(s, MessageStart(message));
    r, finalized, flow := EndMessage(env, r, message);
  }

  /** `message_end` and `resolveMessageReplacement` */
  method EndMessage(env: Env, s: State, message: Message) returns (r: State, finalized: Message, flow: Flow)
    requires Faithful(s.log)
    ensures Faithful(r.log) && r.log.now.phase == NextPhase(s.log.now.phase, MessageEnd(message, finalized))
        && r.log.now.marks == s.log.now.marks
    ensures r.context == s.context && r.produced == s.produced && r.clock > s.clock && !flow.Hung?
    ensures r.log.now.finals == s.log.now.finals + [finalized]
    ensures SameRole(message, finalized) && (NoReplacement(env) ==> flow.Proceed? && finalized == message)
  {
    var replacement := env.replacement(s.clock);
    if replacement.Some? && !SameRole(message, replacement.value) {
      finalized, flow := message, Threw;
    } else {
      finalized, flow := if replacement.Some? then replacement.value else message, Proceed;
    }
    r := Emit(s, MessageEnd(message, finalized));
  }

  /** Some of the deliveries, by position, in order. */
  ghost predicate Picks(deliveries: seq<seq<Message>>, picked: seq<nat>) {
    && (forall i :: 0 <= i < |picked| ==> picked[i] < |deliveries|)
    && (forall i, j :: 0 <= i < j < |picked| ==> picked[i] < picked[j])
  }

  ghost function Delivered(deliveries: seq<seq<Message>>, picked: seq<nat>): seq<Message>
    requires Picks(deliveries, picked)
  {
    if picked == [] then [] else Delivered(deliveries, picked[..|picked| - 1]) + deliveries[picked[|picked| - 1]]
  }

  lemma {:induction false} PickOne(deliveries: seq<seq<Message>>, picked: seq<nat>, n: nat)
    requires Picks(deliveries, picked) && n < |deliveries| && forall i :: 0 <= i < |picked| ==> picked[i] < n
    ensures Picks(deliveries, picked + [n])
        && Delivered(deliveries, picked + [n]) == Delivered(deliveries, picked) + deliveries[n]
  {
    assert (picked + [n])[..|picked|] == picked;
  }

  /** Asked at this moment, the delivery is committed. */
  ghost predicate Commits(env: Env, t: nat) {
    !env.aborted(t) && env.beginDelivery(t).DeliveryCommitted?
  }

  /** Asked at this moment, the delivery was retained or failed. */
  ghost predicate Stops(env: Env, t: nat) {
    !env.aborted(t) && (env.beginDelivery(t).DeliveryRetained? || env.beginDelivery(t).DeliveryFailed?)
  }

  /**
   * The deliveries dealt with so far: `asked` holds the moment each was reached at, none of them stopped
   * the run, and those picked are exactly the committed ones.
   */
  ghost predicate DealtWith(env: Env, deliveries: seq<seq<Message>>, asked: seq<nat>, picked: seq<nat>, from: nat,
      to: nat) {
    && |asked| <= |deliveries| && Picks(deliveries, picked)
    && (forall i :: 0 <= i < |asked| ==> from <= asked[i] <= to && !Stops(env, asked[i]))
    && (forall i, j :: 0 <= i < j < |asked| ==> asked[i] <= asked[j])
    && (forall i :: 0 <= i < |picked| ==> picked[i] < |asked|)
    && (forall n :: 0 <= n < |asked| ==> (n in picked <==> Commits(env, asked[n])))
  }

  /** One more delivery, reached at `t`. */
  lemma {:induction false} DealtWithNext(env: Env, deliveries: seq<seq<Message>>, asked: seq<nat>, picked: seq<nat>,
      from: nat, t: nat, to: nat)
    requires DealtWith(env, deliveries, asked, picked, from, t) && |asked| < |deliveries| && from <= t <= to
        && !Stops(env, t)
    ensures var more := picked + if Commits(env, t) then [|asked|] else [];
            && DealtWith(env, deliveries, asked + [t], more, from, to)
            && Delivered(deliveries, more) == Delivered(deliveries, picked) + if Commits(env, t)
                then deliveries[|asked|] else []
  {
    var n := |asked|;
    var more := picked + if Commits(env, t) then [n] else [];
    if Commits(env, t) { PickOne(deliveries, picked, n); } else { assert more == picked; }
  }

  lemma {:induction false} DeliveredUsers(deliveries: seq<seq<Message>>, picked: seq<nat>)
    requires Picks(deliveries, picked) && forall i :: 0 <= i < |deliveries| ==> AllUsers(deliveries[i])
    ensures AllUsers(Delivered(deliveries, picked))
    decreases |picked|
  {
    if picked != [] { DeliveredUsers(deliveries, picked[..|picked| - 1]); }
  }

  /**
   * Exactly the deliveries that were committed when they were reached enter the context, whole and in
   * order; the first retained or failed one, reached at `stopped`, throws, and nothing comes after it.
   */
  method EmitDeliveries(env: Env, s: State, deliveries: seq<seq<Message>>)
    returns (r: State, added: seq<Message>, asked: seq<nat>, picked: seq<nat>, ghost stopped: Option<nat>, flow: Flow)
    requires Faithful(s.log) && s.log.now.phase.Choosing? && s.produced == s.log.now.finals
    ensures Faithful(r.log) && r.log.now.phase == s.log.now.phase && r.log.now.marks == s.log.now.marks && !flow.Hung?
    ensures r.produced == s.produced + added && r.context == s.context + added && r.clock >= s.clock
    ensures flow.Proceed? ==> r.produced == r.log.now.finals
    ensures DealtWith(env, deliveries, asked, picked, s.clock, r.clock)
    ensures if flow.Proceed? then |asked| == |deliveries| && stopped.None? else |asked| < |deliveries| && stopped.Some?
    ensures NoReplacement(env) ==> added == Delivered(deliveries, picked)
    ensures NoReplacement(env) && flow.Threw? ==> Stops(env, stopped.value)
  {
    r, added, asked, picked, stopped, flow := s, [], [], [], None, Proceed;
    for n := 0 to |deliveries|
      invariant Faithful(r.log) && r.log.now.phase == s.log.now.phase && r.log.now.marks == s.log.now.marks
      invariant r.produced == s.produced + added && r.context == s.context + added && r.clock >= s.clock
      invariant r.produced == r.log.now.finals && flow.Proceed? && stopped.None?
      invariant |asked| == n && DealtWith(env, deliveries, asked, picked, s.clock, r.clock)
      invariant NoReplacement(env) ==> added == Delivered(deliveries, picked)
    {
      var t := r.clock;
      var more, committed;
      r, more, committed, flow := EmitOne(env, r, deliveries[n]);
      added := added + more;
      if !flow.Proceed? {
        stopped := Some(t);
        return;
      }
      DealtWithNext(env, deliveries, asked, picked, s.clock, t, r.clock);
      asked, picked := asked + [t], picked + if committed then [n] else [];
    }
  }

  /** One delivery, reached now: it enters if it is committed, and throws if it was retained or failed. */
  method EmitOne(env: Env, s: State, delivery: seq<Message>)
    returns (r: State, added: seq<Message>, committed: bool, flow: Flow)
    requires Faithful(s.log) && s.log.now.phase.Choosing? && s.produced == s.log.now.finals
    ensures Faithful(r.log) && r.log.now.phase == s.log.now.phase && r.log.now.marks == s.log.now.marks && !flow.Hung?
    ensures r.produced == s.produced + added && r.context == s.context + added && r.clock >= s.clock
    ensures flow.Proceed? ==> r.produced == r.log.now.finals && !Stops(env, s.clock)
    ensures flow.Proceed? ==> (committed <==> Commits(env, s.clock))
    ensures NoReplacement(env) ==> added == if Commits(env, s.clock) then delivery else []
    ensures NoReplacement(env) && flow.Threw? ==> Stops(env, s.clock)
  {
    r, added, committed, flow := s, [], false, Proceed;
    if env.aborted(r.clock) { return; }
    var outcome := env.beginDelivery(r.clock);
    r := Tick(r);
    if outcome.DeliveryRetained? || outcome.DeliveryFailed? {
      flow := Threw;
    } else if outcome.DeliveryCommitted? {
      committed := true;
      r, added, flow := EmitDelivery(env, r, delivery);
    }
  }

  method EmitDelivery(env: Env, s: State, messages: seq<Message>) returns (r: State, added: seq<Message>, flow: Flow)
    requires Faithful(s.log) && s.log.now.phase.Choosing? && s.produced == s.log.now.finals
    ensures Faithful(r.log) && r.log.now.phase == s.log.now.phase && r.log.now.marks == s.log.now.marks && !flow.Hung?
    ensures r.produced == s.produced + added && r.context == s.context + added && r.clock >= s.clock
    ensures flow.Proceed? ==> r.produced == r.log.now.finals
    ensures NoReplacement(env) && AllUsers(messages) ==> AllUsers(added)
    ensures flow.Proceed? ==> |added| == |messages|
    ensures NoReplacement(env) ==> flow.Proceed? && added == messages
  {
    added, flow := [], Proceed;
    r := Emit(s, DeliveryStart(messages));
    for n := 0 to |messages|
      invariant Faithful(r.log) && r.log.now.phase == s.log.now.phase && r.log.now.marks == s.log.now.marks
      invariant r.produced == s.produced + added && r.context == s.context + added && r.clock >= s.clock
      invariant r.produced == r.log.now.finals && flow.Proceed?
      invariant NoReplacement(env) && AllUsers(messages) ==> AllUsers(added)
      invariant |added| == n && (NoReplacement(env) ==> added == messages[..n])
    {
      var finalized;
      r, finalized, flow := EmitCompletedMessage(env, r, messages[n]);
      if !flow.Proceed? { return; }
      added := added + [finalized];
      r := r.(context := r.context + [finalized], produced := r.produced + [finalized]);
    }
  }

  // ----- The assistant response

  /**
   * Ask the provider; no message means that the abort came before it was asked. The message is the
   * provider's final one, as its listeners left it; a stream that fails throws.
   */
  method StreamAssistantResponse(env: Env, s: State, final: bool)
    returns (r: State, message: Option<Message>, ghost asked: Option<nat>, ghost request: Event, flow: Flow)
    requires Faithful(s.log) && s.log.now.phase == TurnOpen(final) && s.produced == s.log.now.finals
    requires InPlace(s.context, s.log.now)
    ensures Faithful(r.log) && !flow.Hung? && r.produced == s.produced && r.clock > s.clock
    ensures r.log.now.phase != Bad && (message.Some? ==> asked.Some?)
    ensures r.log.now.marks ==
            if asked.Some? then Mark(s.log.now.marks, s.log.now.finals, request) else s.log.now.marks
    ensures asked.Some? ==>
              && request.Dispatch? && request.final == final && request.context == s.context
              && request.produced == s.produced && SentAsConverted(env, s.context, request.at, request.sent)
    ensures message.None? && flow.Proceed? ==>
              && r.log.now.phase == s.log.now.phase && r.log.now.finals == s.log.now.finals && r.context == s.context
              && env.aborted(r.clock) && asked.None?
    ensures asked.Some? && env.respond(asked.value).final.None? ==> flow.Threw? && message.None?
    ensures message.Some? ==> Answers(env, asked.value, message.value)
    ensures message.Some? && flow.Proceed? ==>
              && r.log.now.phase == Working(final, {}, {})
              && r.log.now.finals == s.log.now.finals + [message.value]
              && r.context == s.context + [message.value]
              && message.value.Assistant?
              && (Tame(env) ==> DistinctCalls(CallsOf(message.value)))
    ensures NeverThrows(env) ==> !flow.Threw?
  {
    r, message, asked, request, flow := Tick(s), None, None, TurnStart, Proceed;
    if env.aborted(r.clock) { return; }
    var at := r.clock;
    var llmMessages := env.toLlm(at, s.context);
    r := Tick(r);
    if env.aborted(r.clock) { return; }
    if !EndsForProvider(llmMessages) { flow := Threw; return; }
    var sent := ApplyReplayPolicy(env.feedback, llmMessages);
    request := Dispatch(final, s.context, s.produced, at, sent);
    r := Emit(r, Dispatch(final, s.context, s.produced, at, sent));
    asked := Some(r.clock);
    r, message, flow := ReceiveResponse(env, r, final);
  }

  /** The loop over the provider's stream, and the message it ends with. */
  method ReceiveResponse(env: Env, s: State, final: bool) returns (r: State, message: Option<Message>, flow: Flow)
    requires Faithful(s.log) && s.log.now.phase == AgentTrace.Asked(final)
    ensures Faithful(r.log) && !flow.Hung? && r.produced == s.produced && r.clock >= s.clock
    ensures r.log.now.phase != Bad && r.log.now.marks == s.log.now.marks
    ensures message.None? <==> env.respond(s.clock).final.None?
    ensures message.None? ==> flow.Threw?
    ensures message.Some? ==> Answers(env, s.clock, message.value) && message.value.Assistant?
    ensures message.Some? && flow.Proceed? ==>
              && r.log.now.phase == Working(final, {}, {})
              && r.log.now.finals == s.log.now.finals + [message.value]
              && r.context == s.context + [message.value]
    ensures NoReplacement(env) && message.Some? ==> flow.Proceed?
  {
    message, flow := None, Threw;
    var response := env.respond(s.clock);
    r := OpenResponse(s, response, final);
    if response.final.None? { return; }
    var finalMessage := Assistant(response.final.value);
    var finalized;
    r, finalized, flow := EndMessage(env, r, finalMessage);
    message := Some(finalized);
    r := r.(context := s.context + [finalized]);
  }

  /** The response starts: with its partial message and updates, or with the final message alone. */
  method OpenResponse(s: State, response: Response, final: bool) returns (r: State)
    requires Faithful(s.log) && s.log.now.phase == AgentTrace.Asked(final)
    ensures Faithful(r.log) && r.log.now.finals == s.log.now.finals && r.log.now.marks == s.log.now.marks
    ensures r.log.now.phase ==
            if response.start.None? && response.final.None? then s.log.now.phase else Streaming(final)
    ensures r.context == s.context && r.produced == s.produced && r.clock >= s.clock
  {
    r := s;
    if response.start.Some? {
      r := Emit(r, MessageStart(Assistant(response.start.value)));
      r := EmitUpdates(r, response.updates);
    } else if response.final.Some? {
      r := Emit(r, MessageStart(Assistant(response.final.value)));
    }
  }

  /** The provider's final message, unless listeners replaced it. */
  ghost predicate Answers(env: Env, t: nat, message: Message) {
    env.respond(t).final.Some? && (NoReplacement(env) ==> message == Assistant(env.respond(t).final.value))
  }

  method EmitUpdates(s: State, updates: seq<Turn>) returns (r: State)
    requires Faithful(s.log) && s.log.now.phase.Streaming?
    ensures Faithful(r.log) && r.log.now.phase == s.log.now.phase && r.log.now.finals == s.log.now.finals
        && r.log.now.marks == s.log.now.marks
    ensures r.context == s.context && r.produced == s.produced && r.clock >= s.clock
  {
    r := s;
    for n := 0 to |updates|
      invariant Faithful(r.log) && r.log.now.phase == s.log.now.phase && r.log.now.finals == s.log.now.finals
          && r.log.now.marks == s.log.now.marks
      invariant r.context == s.context && r.produced == s.produced && r.clock >= s.clock
    {
      r := Emit(r, MessageUpdate(Assistant(updates[n])));
    }
  }

  // ----- Tool batches

  const ERROR_OUTCOME := ToolOutcome("Operation aborted", true, None)

  /** `reduceToolBatchDisposition` */
  function ReduceDisposition(outcomes: seq<ToolOutcome>): Disposition {
    if exists i :: 0 <= i < |outcomes| && !outcomes[i].isError
        && outcomes[i].disposition == Some(FinalResponse) then FinalResponse
    else if |outcomes| > 0 && forall i :: 0 <= i < |outcomes| ==> outcomes[i].disposition == Some(StopRun) then StopRun
    else Continue
  }

  /**
   * `prepareToolCall`: after an abort nothing is prepared, and what is refused on the spot is an error
   * that asks for nothing.
   */
  function PrepareToolCall(env: Env, t: nat, call: ToolCall): (p: Preparation)
    ensures p.Prepared? ==> !env.aborted(t + 1)
    ensures p.Immediate? ==> p.outcome.isError && p.outcome.disposition.None?
  {
    match env.prepare(t, call)
    case Immediate(outcome) => Immediate(ToolOutcome(outcome.content, true, None))
    case Prepared => if env.aborted(t + 1) then Immediate(ERROR_OUTCOME) else Prepared
  }

  // ----- What the tools said

  const REFUSED := ToolOutcome("Tools are disabled for the final response.", true, None)

  /** A call that runs alone: refused when it is prepared, or what it returns. */
  function AloneOutcome(env: Env, t: nat, call: ToolCall): ToolOutcome {
    match PrepareToolCall(env, t, call)
    case Immediate(outcome) => outcome
    case Prepared => env.execute(t + 1, call).outcome
  }

  /** What a schedule first returns for the `i`-th tool. */
  function FirstReturn(schedule: seq<ToolAction>, i: nat): Option<ToolOutcome> {
    if schedule == [] then None
    else
      var before := FirstReturn(schedule[..|schedule| - 1], i);
      if before.Some? then before
      else match schedule[|schedule| - 1]
           case Return(j, outcome) => if j == i then Some(outcome) else None
           case _ => None
  }

  /** The outcome of the `i`-th call of a batch. */
  function BatchOutcome(env: Env, batch: Batch, i: nat, call: ToolCall): Option<ToolOutcome> {
    match batch
    case NoTools => None
    case Refusal => Some(REFUSED)
    case Sequential(prepared) => if i < |prepared| then Some(AloneOutcome(env, prepared[i], call)) else None
    case Parallel(prepared, ran) =>
      if i >= |prepared| then None
      else
        var p := PrepareToolCall(env, prepared[i], call);
        if p.Immediate? then Some(p.outcome) else FirstReturn(env.schedule(ran), i)
  }

  /** Every outcome is what its own call came to, and the disposition is that of the outcomes. */
  ghost predicate Came(env: Env, calls: seq<ToolCall>, batch: Batch, outcomes: seq<ToolOutcome>,
      disposition: Disposition) {
    && |outcomes| <= |calls|
    && (forall i :: 0 <= i < |outcomes| ==> BatchOutcome(env, batch, i, calls[i]) == Some(outcomes[i]))
    && disposition == if batch.Refusal? then Continue else ReduceDisposition(outcomes)
  }

  ghost predicate Climbing(moments: seq<nat>, from: nat, to: nat) {
    && (forall i :: 0 <= i < |moments| ==> from <= moments[i] <= to)
    && (forall i, j :: 0 <= i < j < |moments| ==> moments[i] < moments[j])
  }

  /** Calls are prepared in order, and run side by side only after that. */
  ghost predicate Timely(batch: Batch, from: nat, to: nat) {
    match batch
    case Sequential(prepared) => Climbing(prepared, from, to)
    case Parallel(prepared, ran) => Climbing(prepared, from, ran) && ran <= to
    case _ => true
  }

  lemma {:induction false} ClimbingNext(moments: seq<nat>, from: nat, to: nat, t: nat)
    requires Climbing(moments, from, to) && from <= t && to < t
    ensures Climbing(moments + [t], from, t)
  {
  }

  function ResultMessage(s: State, call: ToolCall, outcome: ToolOutcome): Message {
    ToolResult(call.id, call.name, outcome.content, outcome.isError, s.clock)
  }

  /** The results answer the calls in order, one each; fewer only after an abort. */
  ghost predicate InOrder(env: Env, calls: seq<ToolCall>, results: seq<Message>, t: nat) {
    && |results| <= |calls|
    && (|results| < |calls| ==> env.aborted(t))
    && (forall i :: 0 <= i < |results| ==> results[i].ToolResult?)
    && (NoReplacement(env) ==> forall i :: 0 <= i < |results| ==> results[i].toolCallId == calls[i].id)
  }

  /** Each result reports the outcome of its own call. */
  ghost predicate Reports(env: Env, calls: seq<ToolCall>, outcomes: seq<ToolOutcome>, results: seq<Message>) {
    && |outcomes| == |results| <= |calls|
    && (forall i :: 0 <= i < |results| ==> results[i].ToolResult?)
    && (NoReplacement(env) ==> forall i :: 0 <= i < |results| ==> ReportsOne(calls[i], outcomes[i], results[i]))
  }

  ghost predicate ReportsOne(call: ToolCall, outcome: ToolOutcome, m: Message) {
    m.ToolResult? && m.toolCallId == call.id && m.toolName == call.name && m.content == outcome.content
        && m.isError == outcome.isError
  }

  /** A turn's tools are done: nothing runs, and every result message is out. */
  ghost predicate BatchDone(s: State, r: State, results: seq<Message>, final: bool) {
    && r.log.now.phase.Working? && r.log.now.phase.running == {} && r.log.now.phase.final == final
    && r.log.now.finals == s.log.now.finals + results
  }

  /** What a batch never touches, and what it leaves even when it is cut short. */
  ghost predicate BatchKeeps(s: State, r: State) {
    && Faithful(r.log) && r.log.now.phase != Bad && r.log.now.marks == s.log.now.marks
    && r.context == s.context && r.produced == s.produced && r.clock >= s.clock
  }

  method ExecuteSequential(env: Env, s: State, calls: seq<ToolCall>)
    returns (r: State, results: seq<Message>, outcomes: seq<ToolOutcome>, batch: Batch, disposition: Disposition,
        flow: Flow)
    requires ValidEnv(env) && Faithful(s.log) && s.log.now.phase == Working(false, {}, {})
    ensures BatchKeeps(s, r) && !flow.Hung? && batch.Sequential?
    ensures flow.Proceed? ==> BatchDone(s, r, results, false) && InOrder(env, calls, results, r.clock)
    ensures flow.Proceed? ==> Reports(env, calls, outcomes, results) && Came(env, calls, batch, outcomes, disposition)
    ensures flow.Proceed? ==> Timely(batch, s.clock, r.clock)
    ensures NoReplacement(env) ==> !flow.Threw?
  {
    var prepared;
    r, results, outcomes, prepared, flow := ExecuteInTurn(env, s, calls);
    batch, disposition := Sequential(prepared), ReduceDisposition(outcomes);
    if flow.Proceed? {
      ReportsInOrder(env, calls, outcomes, results, r.clock);
      AloneCame(env, calls, prepared, outcomes, s.clock, r.clock);
    }
  }

  /** The loop of the sequential executor. */
  method ExecuteInTurn(env: Env, s: State, calls: seq<ToolCall>)
    returns (r: State, results: seq<Message>, outcomes: seq<ToolOutcome>, prepared: seq<nat>, flow: Flow)
    requires Faithful(s.log) && s.log.now.phase == Working(false, {}, {})
    ensures BatchKeeps(s, r) && !flow.Hung?
    ensures flow.Proceed? ==> BatchDone(s, r, results, false) && (|results| < |calls| ==> env.aborted(r.clock))
    ensures flow.Proceed? ==> Reports(env, calls, outcomes, results)
    ensures flow.Proceed? ==> Alone(env, calls, prepared, outcomes, s.clock, r.clock)
    ensures NoReplacement(env) ==> !flow.Threw?
  {
    r, results, outcomes, prepared, flow := s, [], [], [], Proceed;
    for n := 0 to |calls|
      invariant BatchKeeps(s, r) && flow.Proceed? && |results| == n
      invariant r.log.now.phase == Working(false, {}, Below(n)) && r.log.now.finals == s.log.now.finals + results
      invariant Reports(env, calls, outcomes, results)
      invariant Alone(env, calls, prepared, outcomes, s.clock, r.clock)
    {
      r, results, outcomes, prepared, flow := ExecuteNext(env, s, r, calls, results, outcomes, prepared);
      if !flow.Proceed? { return; }
      if env.aborted(r.clock) { break; }
    }
  }

  /** One more call of the sequential executor. */
  method ExecuteNext(env: Env, ghost began: State, s: State, calls: seq<ToolCall>,
      results0: seq<Message>, outcomes0: seq<ToolOutcome>, prepared0: seq<nat>)
    returns (r: State, results: seq<Message>, outcomes: seq<ToolOutcome>, prepared: seq<nat>, flow: Flow)
    requires BatchKeeps(began, s) && |results0| < |calls|
    requires s.log.now.phase == Working(false, {}, Below(|results0|))
    requires s.log.now.finals == began.log.now.finals + results0
    requires Reports(env, calls, outcomes0, results0)
    requires Alone(env, calls, prepared0, outcomes0, began.clock, s.clock)
    ensures BatchKeeps(began, r) && !flow.Hung? && (NoReplacement(env) ==> flow.Proceed?)
    ensures |results| == |results0| + 1 && r.log.now.phase == Working(false, {}, Below(|results|))
    ensures flow.Proceed? ==> r.log.now.finals == began.log.now.finals + results
    ensures Reports(env, calls, outcomes, results)
    ensures Alone(env, calls, prepared, outcomes, began.clock, r.clock)
  {
    var n := |results0|;
    BelowNext(n, n);
    var outcome, finalized;
    r, outcome, finalized, flow := ExecuteAndReport(env, s, n, calls[n], Below(n));
    AloneNext(env, calls, prepared0, outcomes0, began.clock, s.clock, r.clock);
    ReportsNext(env, calls, outcomes0, results0, outcome, finalized);
    results, outcomes, prepared := results0 + [finalized], outcomes0 + [outcome], prepared0 + [s.clock + 1];
  }

  /** The positions before `n`. */
  ghost function Below(n: nat): set<nat> {
    if n == 0 then {} else Below(n - 1) + {n - 1}
  }

  lemma {:induction false} BelowNext(n: nat, m: nat)
    requires m <= n
    ensures n !in Below(m) && Below(n + 1) == Below(n) + {n}
    decreases m
  {
    if m > 0 { BelowNext(n, m - 1); }
  }

  /** One call of a sequential batch, and its result. */
  method ExecuteAndReport(env: Env, s: State, n: nat, call: ToolCall, ghost ended: set<nat>)
    returns (r: State, outcome: ToolOutcome, finalized: Message, flow: Flow)
    requires Faithful(s.log) && s.log.now.phase == Working(false, {}, ended) && n !in ended
    ensures BatchKeeps(s, r) && r.clock > s.clock && !flow.Hung? && r.log.now.phase == Working(false, {}, ended + {n})
    ensures flow.Proceed? ==> r.log.now.finals == s.log.now.finals + [finalized]
    ensures outcome == AloneOutcome(env, s.clock + 1, call)
    ensures finalized.ToolResult? && (NoReplacement(env) ==> ReportsOne(call, outcome, finalized))
    ensures NoReplacement(env) ==> flow.Proceed?
  {
    r, outcome := ExecuteOne(env, s, n, call, ended);
    r, finalized, flow := EmitCompletedMessage(env, r, ResultMessage(r, call, outcome));
  }

  lemma {:induction false} ReportsNext(env: Env, calls: seq<ToolCall>, outcomes: seq<ToolOutcome>,
      results: seq<Message>, outcome: ToolOutcome, m: Message)
    requires Reports(env, calls, outcomes, results) && |results| < |calls| && m.ToolResult?
    requires NoReplacement(env) ==> ReportsOne(calls[|results|], outcome, m)
    ensures Reports(env, calls, outcomes + [outcome], results + [m])
  {
  }

  lemma {:induction false} ReportsInOrder(env: Env, calls: seq<ToolCall>, outcomes: seq<ToolOutcome>,
      results: seq<Message>, t: nat)
    requires Reports(env, calls, outcomes, results) && (|results| < |calls| ==> env.aborted(t))
    ensures InOrder(env, calls, results, t)
  {
    if NoReplacement(env) {
      forall i | 0 <= i < |results| ensures results[i].toolCallId == calls[i].id {
        assert ReportsOne(calls[i], outcomes[i], results[i]);
      }
    }
  }

  /** The calls so far, each prepared at its moment and run alone. */
  ghost predicate Alone(env: Env, calls: seq<ToolCall>, prepared: seq<nat>, outcomes: seq<ToolOutcome>, from: nat,
      to: nat) {
    && |prepared| == |outcomes| <= |calls| && Climbing(prepared, from, to)
    && forall i :: 0 <= i < |outcomes| ==> AloneOutcome(env, prepared[i], calls[i]) == outcomes[i]
  }

  lemma {:induction false} AloneNext(env: Env, calls: seq<ToolCall>, prepared: seq<nat>, outcomes: seq<ToolOutcome>,
      from: nat, began: nat, to: nat)
    requires Alone(env, calls, prepared, outcomes, from, began) && |outcomes| < |calls| && from <= began < to
    ensures Alone(env, calls, prepared + [began + 1], outcomes + [AloneOutcome(env, began + 1, calls[|outcomes|])],
        from, to)
  {
  }

  lemma {:induction false} AloneCame(env: Env, calls: seq<ToolCall>, prepared: seq<nat>, outcomes: seq<ToolOutcome>,
      from: nat, to: nat)
    requires Alone(env, calls, prepared, outcomes, from, to)
    ensures Came(env, calls, Sequential(prepared), outcomes, ReduceDisposition(outcomes))
        && Timely(Sequential(prepared), from, to)
  {
  }

  /** One call from its start to its end; the outcome is its refusal, or what it returned. */
  method ExecuteOne(env: Env, s: State, n: nat, call: ToolCall, ghost ended: set<nat>)
      returns (r: State, outcome: ToolOutcome)
    requires Faithful(s.log) && s.log.now.phase == Working(false, {}, ended) && n !in ended
    ensures Faithful(r.log) && r.log.now.phase == Working(false, {}, ended + {n})
    ensures r.log.now.finals == s.log.now.finals && r.log.now.marks == s.log.now.marks
    ensures r.context == s.context && r.produced == s.produced && r.clock > s.clock
    ensures outcome == AloneOutcome(env, s.clock + 1, call)
  {
    r := Emit(s, ToolStart(n));
    var preparation := PrepareToolCall(env, r.clock, call);
    r := Tick(r);
    if preparation.Immediate? {
      outcome := preparation.outcome;
    } else {
      var run := env.execute(r.clock, call);
      r := Tick(r);
      outcome := run.outcome;
      r := EmitReports(r, n, run.updates);
    }
    r := Emit(r, ToolEnd(n));
    assert {n} - {n} == {};
  }

  /** The progress reports of a running call. */
  method EmitReports(s: State, n: nat, count: nat) returns (r: State)
    requires Faithful(s.log) && s.log.now.phase.Working? && n in s.log.now.phase.running
    ensures Faithful(r.log) && r.log.now == s.log.now
    ensures r.context == s.context && r.produced == s.produced && r.clock == s.clock + count
  {
    r := s;
    for k := 0 to count
      invariant Faithful(r.log) && r.log.now == s.log.now
      invariant r.context == s.context && r.produced == s.produced && r.clock == s.clock + k
    {
      r := Emit(r, ToolUpdate(n));
    }
  }

  datatype ToolStatus = Executing | SettledTool(outcome: ToolOutcome) | EndedTool(outcome: ToolOutcome)

  /** The tools that have not ended, and those that have. */
  ghost function RunningTools(tools: seq<ToolStatus>): set<nat> {
    set i | 0 <= i < |tools| && !tools[i].EndedTool?
  }

  ghost function EndedTools(tools: seq<ToolStatus>): set<nat> {
    set i | 0 <= i < |tools| && tools[i].EndedTool?
  }

  /** What the first loop of the parallel executor makes of a call. */
  function StartStatus(env: Env, t: nat, call: ToolCall): ToolStatus {
    match PrepareToolCall(env, t, call)
    case Immediate(outcome) => EndedTool(outcome)
    case Prepared => Executing
  }

  /** What a tool settled on: the outcome it had, or the first one the schedule returns for it. */
  function SettledOn(tool: ToolStatus, schedule: seq<ToolAction>, i: nat): Option<ToolOutcome> {
    if tool.Executing? then FirstReturn(schedule, i) else Some(tool.outcome)
  }

  ghost predicate AllSettledOn(tools0: seq<ToolStatus>, schedule: seq<ToolAction>, tools: seq<ToolStatus>) {
    && |tools| == |tools0|
    && forall i :: 0 <= i < |tools| ==>
         SettledOn(tools0[i], schedule, i) == if tools[i].Executing? then None else Some(tools[i].outcome)
  }

  method ExecuteParallel(env: Env, s: State, calls: seq<ToolCall>)
    returns (r: State, results: seq<Message>, outcomes: seq<ToolOutcome>, batch: Batch, disposition: Disposition,
        flow: Flow)
    requires ValidEnv(env) && Faithful(s.log) && s.log.now.phase == Working(false, {}, {})
    ensures BatchKeeps(s, r) && batch.Parallel?
    ensures flow.Proceed? ==> BatchDone(s, r, results, false) && InOrder(env, calls, results, r.clock)
    ensures flow.Proceed? ==> Reports(env, calls, outcomes, results) && Came(env, calls, batch, outcomes, disposition)
    ensures flow.Proceed? ==> Timely(batch, s.clock, r.clock)
    ensures NoReplacement(env) ==> !flow.Threw?
  {
    var started, prepared;
    results, outcomes, disposition, flow := [], [], Continue, Proceed;
    r, started, prepared := StartAll(env, s, calls);
    batch := Parallel(prepared, r.clock);
    var tools;
    r, tools := Interleave(env, r, started);
    if exists i :: 0 <= i < |tools| && !tools[i].EndedTool? { flow := Hung; return; }
    assert RunningTools(tools) == {};
    OutcomesCame(env, calls, prepared, batch.ran, started, tools);
    r, results, outcomes, flow := ReportAll(env, r, calls, tools);
    disposition := ReduceDisposition(outcomes);
  }

  /** The last loop of the parallel executor: the results, in the order of the calls. */
  method ReportAll(env: Env, s: State, calls: seq<ToolCall>, tools: seq<ToolStatus>)
    returns (r: State, results: seq<Message>, outcomes: seq<ToolOutcome>, flow: Flow)
    requires Faithful(s.log) && s.log.now.phase == Working(false, {}, EndedTools(tools))
    requires |tools| <= |calls| && forall i :: 0 <= i < |tools| ==> tools[i].EndedTool?
    ensures BatchKeeps(s, r) && !flow.Hung?
    ensures flow.Proceed? ==> BatchDone(s, r, results, false) && Reports(env, calls, outcomes, results)
    ensures flow.Proceed? ==> |outcomes| == |tools| && forall i :: 0 <= i < |tools| ==> outcomes[i] == tools[i].outcome
    ensures NoReplacement(env) ==> !flow.Threw?
  {
    r, results, outcomes, flow := s, [], [], Proceed;
    for n := 0 to |tools|
      invariant BatchKeeps(s, r) && flow.Proceed?
      invariant r.log.now.phase == Working(false, {}, EndedTools(tools))
      invariant r.log.now.finals == s.log.now.finals + results
      invariant |results| == n && Reports(env, calls, outcomes, results)
      invariant forall i :: 0 <= i < n ==> outcomes[i] == tools[i].outcome
    {
      var finalized;
      r, finalized, flow := EmitCompletedMessage(env, r, ResultMessage(r, calls[n], tools[n].outcome));
      if !flow.Proceed? { return; }
      outcomes := outcomes + [tools[n].outcome];
      results := results + [finalized];
    }
  }

  lemma {:induction false} OutcomesCame(env: Env, calls: seq<ToolCall>, prepared: seq<nat>, ran: nat,
      started: seq<ToolStatus>, tools: seq<ToolStatus>)
    requires |started| == |prepared| <= |calls| && AllSettledOn(started, env.schedule(ran), tools)
    requires forall i :: 0 <= i < |started| ==> started[i] == StartStatus(env, prepared[i], calls[i])
    requires forall i :: 0 <= i < |tools| ==> tools[i].EndedTool?
    ensures forall i :: 0 <= i < |tools| ==>
        BatchOutcome(env, Parallel(prepared, ran), i, calls[i]) == Some(tools[i].outcome)
  {
    forall i | 0 <= i < |tools| ensures BatchOutcome(env, Parallel(prepared, ran), i, calls[i]) ==
        Some(tools[i].outcome) {
      assert SettledOn(started[i], env.schedule(ran), i) == Some(tools[i].outcome);
    }
  }

  /** The first loop of the parallel executor: start every call, and end at once those that are refused. */
  method StartAll(env: Env, s: State, calls: seq<ToolCall>)
      returns (r: State, tools: seq<ToolStatus>, prepared: seq<nat>)
    requires ValidEnv(env) && Faithful(s.log) && s.log.now.phase == Working(false, {}, {})
    ensures BatchKeeps(s, r) && r.log.now.finals == s.log.now.finals
    ensures r.log.now.phase == Working(false, RunningTools(tools), EndedTools(tools))
    ensures |tools| == |prepared| <= |calls| && (|tools| < |calls| ==> env.aborted(r.clock))
    ensures Climbing(prepared, s.clock, r.clock)
    ensures forall i :: 0 <= i < |tools| ==> tools[i] == StartStatus(env, prepared[i], calls[i])
  {
    r, tools, prepared := s, [], [];
    for n := 0 to |calls|
      invariant BatchKeeps(s, r) && r.log.now.finals == s.log.now.finals
      invariant r.log.now.phase == Working(false, RunningTools(tools), EndedTools(tools))
      invariant |tools| == |prepared| == n && Climbing(prepared, s.clock, r.clock)
      invariant forall i :: 0 <= i < n ==> tools[i] == StartStatus(env, prepared[i], calls[i])
    {
      ClimbingNext(prepared, s.clock, r.clock, r.clock + 1);
      prepared := prepared + [r.clock + 1];
      var tool;
      r, tool := StartOne(env, r, calls[n], n, tools);
      tools := tools + [tool];
      if env.aborted(r.clock) { break; }
    }
  }

  method StartOne(env: Env, s: State, call: ToolCall, n: nat, ghost tools: seq<ToolStatus>)
      returns (r: State, tool: ToolStatus)
    requires Faithful(s.log) && s.log.now.phase == Working(false, RunningTools(tools), EndedTools(tools))
        && n == |tools|
    ensures BatchKeeps(s, r) && r.clock > s.clock && r.log.now.finals == s.log.now.finals
    ensures r.log.now.phase == Working(false, RunningTools(tools + [tool]), EndedTools(tools + [tool]))
    ensures tool == StartStatus(env, s.clock + 1, call)
  {
    r := Emit(s, ToolStart(n));
    var preparation := PrepareToolCall(env, r.clock, call);
    r := Tick(r);
    if preparation.Immediate? {
      r := Emit(r, ToolEnd(n));
      StartedEnded(tools, preparation.outcome);
      tool := EndedTool(preparation.outcome);
    } else {
      StartedRunning(tools);
      tool := Executing;
    }
  }

  lemma {:induction false} StartedEnded(tools: seq<ToolStatus>, outcome: ToolOutcome)
    ensures RunningTools(tools + [EndedTool(outcome)]) == (RunningTools(tools) + {|tools|}) - {|tools|}
    ensures EndedTools(tools + [EndedTool(outcome)]) == EndedTools(tools) + {|tools|}
  {
  }

  lemma {:induction false} StartedRunning(tools: seq<ToolStatus>)
    ensures RunningTools(tools + [Executing]) == RunningTools(tools) + {|tools|}
    ensures EndedTools(tools + [Executing]) == EndedTools(tools)
  {
  }

  /**
   * Tools running side by side, in any order. Each settles on the first outcome the schedule returns for
   * it; a report after that is not emitted.
   */
  method Interleave(env: Env, s: State, tools0: seq<ToolStatus>) returns (r: State, tools: seq<ToolStatus>)
    requires ValidEnv(env) && Faithful(s.log)
        && s.log.now.phase == Working(false, RunningTools(tools0), EndedTools(tools0))
    ensures BatchKeeps(s, r) && r.log.now.finals == s.log.now.finals
    ensures r.log.now.phase == Working(false, RunningTools(tools), EndedTools(tools))
    ensures AllSettledOn(tools0, env.schedule(s.clock), tools)
  {
    r, tools := s, tools0;
    var schedule := env.schedule(s.clock);
    assert schedule[..0] == [];
    for n := 0 to |schedule|
      invariant BatchKeeps(s, r) && r.log.now.finals == s.log.now.finals
      invariant r.log.now.phase == Working(false, RunningTools(tools), EndedTools(tools))
      invariant AllSettledOn(tools0, schedule[..n], tools)
    {
      ghost var before := tools;
      r, tools := TakeAction(r, tools, schedule[n]);
      SettledNext(tools0, schedule, n, before, tools);
    }
    assert schedule[..|schedule|] == schedule;
  }

  /** One of the tools reports, returns, or has its end emitted. */
  method TakeAction(s: State, tools0: seq<ToolStatus>, action: ToolAction) returns (r: State, tools: seq<ToolStatus>)
    requires Faithful(s.log) && s.log.now.phase == Working(false, RunningTools(tools0), EndedTools(tools0))
    ensures BatchKeeps(s, r) && r.log.now.finals == s.log.now.finals
    ensures r.log.now.phase == Working(false, RunningTools(tools), EndedTools(tools))
    ensures tools == AfterAction(tools0, action)
  {
    r, tools := s, tools0;
    if action.i < |tools| {
      match (action, tools[action.i]) {
        case (Report(i), Executing) => r := Emit(r, ToolUpdate(i));
        case (Return(i, outcome), Executing) =>
          Settling(tools, i, outcome);
          tools := tools[i := SettledTool(outcome)];
        case (Finish(i), SettledTool(outcome)) =>
          r := Emit(r, ToolEnd(i));
          Ending(tools, i, outcome);
          tools := tools[i := EndedTool(outcome)];
        case _ =>
      }
    }
  }

  lemma {:induction false} Settling(tools: seq<ToolStatus>, i: nat, outcome: ToolOutcome)
    requires i < |tools| && tools[i].Executing?
    ensures RunningTools(tools[i := SettledTool(outcome)]) == RunningTools(tools)
    ensures EndedTools(tools[i := SettledTool(outcome)]) == EndedTools(tools)
  {
  }

  lemma {:induction false} Ending(tools: seq<ToolStatus>, i: nat, outcome: ToolOutcome)
    requires i < |tools| && tools[i].SettledTool?
    ensures RunningTools(tools[i := EndedTool(outcome)]) == RunningTools(tools) - {i}
    ensures EndedTools(tools[i := EndedTool(outcome)]) == EndedTools(tools) + {i}
  {
  }

  /** What one action of the schedule does to the tools. */
  function AfterAction(tools: seq<ToolStatus>, action: ToolAction): seq<ToolStatus> {
    if action.i >= |tools| then tools
    else match (action, tools[action.i])
         case (Return(i, outcome), Executing) => tools[i := SettledTool(outcome)]
         case (Finish(i), SettledTool(outcome)) => tools[i := EndedTool(outcome)]
         case _ => tools
  }

  lemma {:induction false} SettledNext(tools0: seq<ToolStatus>, schedule: seq<ToolAction>, n: nat,
      before: seq<ToolStatus>, tools: seq<ToolStatus>)
    requires n < |schedule| && AllSettledOn(tools0, schedule[..n], before) && tools == AfterAction(before, schedule[n])
    ensures AllSettledOn(tools0, schedule[..n + 1], tools)
  {
    var next := schedule[..n + 1];
    assert next[..|next| - 1] == schedule[..n] && next[|next| - 1] == schedule[n];
    forall i | 0 <= i < |tools|
      ensures SettledOn(tools0[i], next, i) == if tools[i].Executing? then None else Some(tools[i].outcome)
    {
      assert SettledOn(tools0[i], schedule[..n], i) == if before[i].Executing? then None else Some(before[i].outcome);
    }
  }

  /** In a final-response turn no tool runs: each call is answered with an error. */
  method RefuseTools(env: Env, s: State, calls: seq<ToolCall>)
    returns (r: State, results: seq<Message>, outcomes: seq<ToolOutcome>, flow: Flow)
    requires Faithful(s.log) && s.log.now.phase == Working(true, {}, {})
    ensures BatchKeeps(s, r) && !flow.Hung?
    ensures flow.Proceed? ==>
        BatchDone(s, r, results, true) && InOrder(env, calls, results, r.clock)
        && |results| == |calls|
    ensures flow.Proceed? ==> Reports(env, calls, outcomes, results) && Came(env, calls, Refusal, outcomes, Continue)
    ensures NoReplacement(env) ==> !flow.Threw?
  {
    r, results, outcomes, flow := s, [], [], Proceed;
    for n := 0 to |calls|
      invariant BatchKeeps(s, r) && flow.Proceed?
      invariant r.log.now.phase == Working(true, {}, {})
      invariant r.log.now.finals == s.log.now.finals + results && |results| == n
      invariant Reports(env, calls, outcomes, results) && Came(env, calls, Refusal, outcomes, Continue)
    {
      var finalized;
      r, finalized, flow := EmitCompletedMessage(env, r, ResultMessage(r, calls[n], REFUSED));
      if !flow.Proceed? { return; }
      outcomes := outcomes + [REFUSED];
      results := results + [finalized];
    }
  }

  method ExecuteToolCalls(env: Env, s: State, calls: seq<ToolCall>)
    returns (r: State, results: seq<Message>, outcomes: seq<ToolOutcome>, batch: Batch, disposition: Disposition,
        flow: Flow)
    requires ValidEnv(env) && Faithful(s.log) && s.log.now.phase == Working(false, {}, {})
    ensures BatchKeeps(s, r) && if env.sequential(s.clock) then batch.Sequential? else batch.Parallel?
    ensures flow.Proceed? ==> BatchDone(s, r, results, false) && InOrder(env, calls, results, r.clock)
    ensures flow.Proceed? ==> Reports(env, calls, outcomes, results) && Came(env, calls, batch, outcomes, disposition)
    ensures flow.Proceed? ==> Timely(batch, s.clock, r.clock)
    ensures NoReplacement(env) ==> !flow.Threw?
  {
    if env.sequential(s.clock) {
      r, results, outcomes, batch, disposition, flow := ExecuteSequential(env, s, calls);
    } else {
      r, results, outcomes, batch, disposition, flow := ExecuteParallel(env, s, calls);
    }
  }

  // ----- Results answer their calls

  lemma {:induction false} InOrderAnswers(env: Env, calls: seq<ToolCall>, results: seq<Message>, t: nat)
    requires InOrder(env, calls, results, t) && |results| == |calls| && NoReplacement(env) && DistinctCalls(calls)
    ensures ExactlyAnswered(calls, results)
  {
    forall i | 0 <= i < |calls| ensures Answered(results, calls[i].id) && Asks(calls, results[i].toolCallId) {
      assert results[i].toolCallId == calls[i].id;
    }
  }

  lemma {:induction false} SegmentConcat(a: seq<Message>, b: seq<Message>, n: nat)
    requires 1 + n <= |a|
    ensures a + b == [a[0]] + a[1..1 + n] + (a[1 + n..] + b)
  {
  }

  lemma {:induction false} ReplayableConcat(a: seq<Message>, b: seq<Message>)
    requires Replayable(a) && Replayable(b)
    ensures Replayable(a + b)
    decreases |a|
  {
    if a == [] {
      assert a + b == b;
    } else {
      var n := Leading(a[1..]);
      var head, rs, rest := a[0], a[1..1 + n], a[1 + n..];
      ReplayableConcat(rest, b);
      SegmentConcat(a, b, n);
      ReplayableSegment(head, rs, rest + b);
    }
  }

  lemma {:induction false} UsersReplayable(ms: seq<Message>)
    requires AllUsers(ms)
    ensures Replayable(ms)
  {
    if ms != [] {
      UsersReplayable(ms[1..]);
      assert ms == [ms[0]] + [] + ms[1..];
      ReplayableSegment(ms[0], [], ms[1..]);
    }
  }

  /** A completed turn with all its results extends a transcript the policy leaves alone to another one. */
  lemma {:induction false} TurnReplayable(produced: seq<Message>, message: Message, results: seq<Message>)
    requires Replayable(produced) && message.Assistant? && !Failed(message)
        && ExactlyAnswered(CallsOf(message), results)
    ensures Replayable(produced + ([message] + results))
  {
    assert [message] + results == [message] + results + [];
    ReplayableSegment(message, results, []);
    ReplayableConcat(produced, [message] + results);
  }

  // ----- Ends of a run

  /** `agent_end`: the run returns. */
  method EndRun(env: Env, ghost c: Claim, s: State) returns (r: State)
    requires Faithful(s.log) && s.log.now.phase.Resting? && s.produced == s.log.now.finals
    requires GoodMarks(env, c, s.log.now.marks)
    ensures Returned(env, c, r) && r.produced == s.produced
  {
    r := Emit(s, AgentEnd(s.produced));
  }

  const ABORTED_TURN := Turn([Content("")], Aborted, 0, "")

  /** A turn without tools: its response failed, or the abort came first. */
  function Bare(env: Env, t: nat): TurnNote {
    TurnNote(NoTools, [], Continue, t, env.aborted(t))
  }

  lemma {:induction false} BareTurn(env: Env, message: Message, t: nat)
    requires message.Assistant? && (Failed(message) || env.aborted(t))
    ensures GoodTurn(env, message, [], Bare(env, t))
  {
  }

  /** The loop sees that the run was aborted, and leaves. */
  method SeeAbort(env: Env, ghost c: Claim, s: State) returns (r: State)
    requires ValidEnv(env) && env.aborted(s.clock)
    requires Faithful(s.log) && s.produced == s.log.now.finals && GoodMarks(env, c, s.log.now.marks)
    ensures Faithful(r.log) && r.produced == r.log.now.finals && GoodMarks(env, c, r.log.now.marks)
    ensures r.log.now.phase == NextPhase(s.log.now.phase, AbortSeen(s.clock)) && env.aborted(r.clock)
    ensures r.context == s.context && r.produced == s.produced
  {
    MarksNext(env, c, s.log.now, AbortSeen(s.clock));
    r := Emit(s, AbortSeen(s.clock));
  }

  /** The aborted message of a turn in which nothing else happens, and `turn_end`. */
  method CloseCancelled(env: Env, ghost c: Claim, s: State) returns (r: State, finalized: Message, flow: Flow)
    requires ValidEnv(env) && env.aborted(s.clock)
    requires Faithful(s.log) && s.log.now.phase.Cancelled? && s.produced == s.log.now.finals
    requires GoodMarks(env, c, s.log.now.marks)
    ensures CutShort(env, c, r) && !flow.Hung?
    ensures flow.Proceed? ==> r.log.now.phase.Resting? && r.produced == r.log.now.finals
    ensures flow.Proceed? ==> r.produced == s.produced + [finalized] && r.context == s.context + [finalized]
    ensures finalized.Assistant? && (NoReplacement(env) ==> flow.Proceed? && finalized == Assistant(ABORTED_TURN))
  {
    var marker := Assistant(ABORTED_TURN);
    r := Emit(s, MessageStart(marker));
    r, finalized, flow := EndMessage(env, r, marker);
    if !flow.Proceed? { return; }
    r := r.(context := r.context + [finalized], produced := r.produced + [finalized]);
    BareTurn(env, finalized, r.clock);
    r := EndBare(env, c, r, finalized);
  }

  /** `turn_end` of a turn without tools, after which the run rests. */
  method EndBare(env: Env, ghost c: Claim, s: State, message: Message) returns (r: State)
    requires Faithful(s.log) && s.produced == s.log.now.finals && GoodMarks(env, c, s.log.now.marks)
    requires
      || s.log.now.phase.CancelClosed?
      || (s.log.now.phase.Working? && s.log.now.phase.running == {} && Failed(message))
    requires GoodTurn(env, message, [], Bare(env, s.clock))
    ensures Faithful(r.log) && r.log.now.phase.Resting? && r.produced == r.log.now.finals
    ensures GoodMarks(env, c, r.log.now.marks) && r.produced == s.produced && r.context == s.context
  {
    MarksNext(env, c, s.log.now, TurnEnd(message, [], Bare(env, s.clock)));
    r := Emit(s, TurnEnd(message, [], Bare(env, s.clock)));
  }

  /** A failed response closes its turn, and the run returns. */
  method EndFailed(env: Env, ghost c: Claim, s: State, message: Message) returns (r: State)
    requires Faithful(s.log) && s.produced == s.log.now.finals && GoodMarks(env, c, s.log.now.marks)
    requires s.log.now.phase.Working? && s.log.now.phase.running == {} && message.Assistant? && Failed(message)
    ensures Returned(env, c, r) && r.produced == s.produced
  {
    BareTurn(env, message, s.clock);
    r := EndBare(env, c, s, message);
    r := EndRun(env, c, r);
  }

  /** `emitBoundaryAbort`: a turn of its own that only says that the run was aborted. */
  method EmitBoundaryAbort(env: Env, ghost c: Claim, s: State) returns (r: State, flow: Flow)
    requires ValidEnv(env) && env.aborted(s.clock)
    requires Faithful(s.log) && s.log.now.phase.Leaving? && s.produced == s.log.now.finals
    requires GoodMarks(env, c, s.log.now.marks)
    ensures CutShort(env, c, r) && !flow.Hung?
    ensures flow.Proceed? ==> r.log.now.phase.Resting? && r.produced == r.log.now.finals
    ensures NoReplacement(env) ==> flow.Proceed? && r.produced == s.produced + [Assistant(ABORTED_TURN)]
  {
    r := Emit(s, TurnStart);
    var finalized;
    r, finalized, flow := CloseCancelled(env, c, r);
  }

  /** The run leaves with a cancelled turn. */
  method AbortAndEnd(env: Env, ghost c: Claim, s: State) returns (r: State, flow: Flow)
    requires ValidEnv(env) && env.aborted(s.clock)
    requires Faithful(s.log) && s.produced == s.log.now.finals && GoodMarks(env, c, s.log.now.marks)
    requires s.log.now.phase.Choosing? || (s.log.now.phase.Between? && !s.log.now.phase.silent)
    ensures !flow.Hung? && CutShort(env, c, r) && (flow.Proceed? ==> Returned(env, c, r))
    ensures NoReplacement(env) ==> flow.Proceed? && r.produced == s.produced + [Assistant(ABORTED_TURN)]
  {
    r := SeeAbort(env, c, s);
    r, flow := EmitBoundaryAbort(env, c, r);
    if flow.Proceed? { r := EndRun(env, c, r); }
  }

  /** The run leaves without a word. */
  method LeaveSilently(env: Env, ghost c: Claim, s: State) returns (r: State)
    requires ValidEnv(env) && env.aborted(s.clock)
    requires Faithful(s.log) && s.produced == s.log.now.finals && GoodMarks(env, c, s.log.now.marks)
    requires Silent(s.log.now.phase)
    ensures Returned(env, c, r) && r.produced == s.produced
  {
    r := SeeAbort(env, c, s);
    r := EndRun(env, c, r);
  }

  /** The abort came before the provider was asked: the turn holds an aborted message, and the run returns. */
  method EndPreflight(env: Env, ghost c: Claim, s: State, turnStarted: bool) returns (r: State, flow: Flow)
    requires ValidEnv(env) && env.aborted(s.clock)
    requires Faithful(s.log) && s.produced == s.log.now.finals && GoodMarks(env, c, s.log.now.marks)
    requires if turnStarted then s.log.now.phase.TurnOpen? else s.log.now.phase.Ready? || s.log.now.phase.Primed?
    ensures !flow.Hung? && CutShort(env, c, r) && (flow.Proceed? ==> Returned(env, c, r))
    ensures NoReplacement(env) ==> flow.Proceed? && r.produced == s.produced + [Assistant(ABORTED_TURN)]
  {
    r := SeeAbort(env, c, s);
    if !turnStarted { r := Emit(r, TurnStart); }
    var finalized;
    r, finalized, flow := CloseCancelled(env, c, r);
    if flow.Proceed? { r := EndRun(env, c, r); }
  }

  // ----- One turn

  /** What a turn reports to the loop. */
  datatype TurnReport = TurnReport(calls: nat, disposition: Disposition, returned: bool)

  /** The tools of a completed response. */
  method RunBatch(env: Env, s: State, calls: seq<ToolCall>, final: bool)
    returns (r: State, results: seq<Message>, outcomes: seq<ToolOutcome>, batch: Batch, disposition: Disposition,
        flow: Flow)
    requires ValidEnv(env) && Faithful(s.log) && s.log.now.phase == Working(final, {}, {})
    ensures BatchKeeps(s, r) && (final ==> disposition.Continue?) && (batch.NoTools? || (batch.Refusal? <==> final))
    ensures flow.Proceed? ==> BatchDone(s, r, results, final) && InOrder(env, calls, results, r.clock)
    ensures flow.Proceed? ==> Reports(env, calls, outcomes, results) && Came(env, calls, batch, outcomes, disposition)
    ensures flow.Proceed? ==> Timely(batch, s.clock, r.clock)
    ensures NoReplacement(env) ==> !flow.Threw?
  {
    r, results, outcomes, batch, disposition, flow := s, [], [], NoTools, Continue, Proceed;
    if |calls| > 0 {
      if final {
        batch := Refusal;
        r, results, outcomes, flow := RefuseTools(env, s, calls);
      } else {
        r, results, outcomes, batch, disposition, flow := ExecuteToolCalls(env, s, calls);
      }
    }
  }

  /** The transcript after a completed turn whose batch was not cut short. */
  lemma {:induction false} TurnTranscript(env: Env, before: seq<Message>, message: Message, results: seq<Message>,
      t: nat)
    requires Tame(env) && !env.aborted(t) && InOrder(env, CallsOf(message), results, t)
    requires Replayable(before) && message.Assistant? && !Failed(message) && DistinctCalls(CallsOf(message))
    ensures Replayable(before + [message] + results)
  {
    Assoc(before, [message], results);
    InOrderAnswers(env, CallsOf(message), results, t);
    TurnReplayable(before, message, results);
  }

  /** The tools of a completed response, and `turn_end`. */
  method FinishTurn(env: Env, ghost c: Claim, s: State, message: Message, final: bool, ghost before: seq<Message>)
    returns (r: State, report: TurnReport, abortedBefore: bool, flow: Flow)
    requires Justified(env, c) && ValidEnv(env) && Faithful(s.log) && s.log.now.phase == Working(final, {}, {})
    requires message.Assistant? && !Failed(message)
    requires s.produced == s.log.now.finals == before + [message] && GoodMarks(env, c, s.log.now.marks)
    requires InPlace(s.context, s.log.now)
    requires c.tame ==> Replayable(before) && DistinctCalls(CallsOf(message))
    ensures CutShort(env, c, r) && !report.returned
    ensures flow.Proceed? ==> TurnOver(env, c, r, final, report, abortedBefore)
    ensures flow.Proceed? ==> report.calls == |CallsOf(message)| && s.produced <= r.produced
    ensures NoReplacement(env) ==> !flow.Threw?
  {
    var results, outcomes, batch, disposition;
    r, results, outcomes, batch, disposition, flow := RunBatch(env, s, CallsOf(message), final);
    report, abortedBefore := TurnReport(|CallsOf(message)|, disposition, false), false;
    if !flow.Proceed? { return; }
    abortedBefore := env.aborted(r.clock);
    var note := TurnNote(batch, outcomes, disposition, r.clock, abortedBefore);
    TurnIsGood(env, message, results, note, s.clock);
    ContextGrows(s.context, s.log.now.marks.basis, s.log.now.finals, results);
    r := CloseTurn(env, c, r, message, results, note, before);
  }

  /** The results join context and run messages, and the turn ends. */
  method CloseTurn(
      env: Env, ghost c: Claim, s: State, message: Message, results: seq<Message>, note: TurnNote,
      ghost before: seq<Message>)
    returns (r: State)
    requires Justified(env, c) && ValidEnv(env) && Faithful(s.log) && s.log.now.phase.Working?
    requires s.log.now.phase.running == {} && Fits(note, s.log.now.phase.final)
    requires s.produced == before + [message] && s.log.now.finals == s.produced + results
    requires GoodMarks(env, c, s.log.now.marks) && GoodTurn(env, message, results, note)
    requires !Failed(message) && note.at <= s.clock
    requires InPlace(s.context + results, s.log.now)
    requires c.tame ==> Replayable(before) && DistinctCalls(CallsOf(message))
    ensures Faithful(r.log) && r.log.now.phase == TurnEnded(s.log.now.phase.final, message, note)
    ensures r.produced == r.log.now.finals == s.produced + results && GoodMarks(env, c, r.log.now.marks)
    ensures InPlace(r.context, r.log.now)
    ensures r.clock >= s.clock && (!env.aborted(r.clock) && c.tame ==> Replayable(r.produced))
  {
    r := s.(context := s.context + results, produced := s.produced + results);
    MarksNext(env, c, r.log.now, TurnEnd(message, results, note));
    r := Emit(r, TurnEnd(message, results, note));
    if !env.aborted(r.clock) && c.tame {
      TurnTranscript(env, before, message, results, note.at);
    }
  }

  lemma {:induction false} TurnIsGood(env: Env, message: Message, results: seq<Message>, note: TurnNote, from: nat)
    requires message.Assistant? && !Failed(message) && InOrder(env, CallsOf(message), results, note.at)
    requires note.aborted == env.aborted(note.at)
    requires Reports(env, CallsOf(message), note.outcomes, results) && Timely(note.batch, from, note.at)
    requires Came(env, CallsOf(message), note.batch, note.outcomes, note.disposition)
    ensures GoodTurn(env, message, results, note)
  {
  }

  lemma {:induction false} MarksNext(env: Env, c: Claim, m: Monitor, e: Event)
    requires GoodMarks(env, c, m.marks) && GoodMark(env, c, e)
    ensures GoodMarks(env, c, Mark(m.marks, m.finals, e))
  {
  }

  /** A turn came to its end without ending the run. */
  ghost predicate TurnOver(env: Env, c: Claim, r: State, final: bool, report: TurnReport, abortedBefore: bool) {
    && Faithful(r.log)
    && r.log.now.phase ==
       Between(AfterTurn(final, report.calls, report.disposition), report.calls == 0 && abortedBefore)
    && r.produced == r.log.now.finals && (abortedBefore ==> env.aborted(r.clock))
    && InPlace(r.context, r.log.now)
    && (!env.aborted(r.clock) && c.tame ==> Replayable(r.produced))
  }

  lemma {:induction false} BoundaryAgain(
      env: Env, c: Claim, r: State, final: bool, report: TurnReport, abortedBefore: bool)
    requires TurnOver(env, c, r, final, report, abortedBefore) && CutShort(env, c, r) && !env.aborted(r.clock)
    ensures var next := AfterTurn(final, report.calls, report.disposition);
            AtBoundary(env, c, r, Between(next, false)) && UserAction(next.default)
  {
  }

  /** A request: `turn_start`, the response, its tools, `turn_end`. */
  method RunTurn(env: Env, ghost c: Claim, s: State, final: bool)
    returns (r: State, report: TurnReport, abortedBefore: bool, flow: Flow)
    requires Justified(env, c) && ValidEnv(env) && ReadyToStart(env, c, s, final)
    ensures CutShort(env, c, r)
    ensures flow.Proceed? && report.returned ==> Returned(env, c, r)
    ensures flow.Proceed? && !report.returned ==> TurnOver(env, c, r, final, report, abortedBefore)
    ensures NeverThrows(env) ==> !flow.Threw?
  {
    r, report, abortedBefore, flow := s, TurnReport(0, Continue, true), false, Proceed;
    if env.aborted(r.clock) {
      r, flow := EndPreflight(env, c, r, false);
      return;
    }
    var message;
    r, message, flow := AskProvider(env, c, r, final);
    if !flow.Proceed? { return; }
    if message.None? {
      r, flow := EndPreflight(env, c, r, true);
      return;
    }
    if Failed(message.value) {
      r := EndFailed(env, c, r, message.value);
      return;
    }
    r, report, abortedBefore, flow := FinishTurn(env, c, r, message.value, final, s.produced);
  }

  /** `turn_start`, and the response unless the abort comes first. */
  method AskProvider(env: Env, ghost c: Claim, s: State, final: bool)
    returns (r: State, message: Option<Message>, flow: Flow)
    requires Justified(env, c) && ValidEnv(env) && AtBoundary(env, c, s, Primed(final))
    ensures CutShort(env, c, r) && !flow.Hung? && (NeverThrows(env) ==> !flow.Threw?)
    ensures flow.Proceed? ==> InPlace(r.context, r.log.now) && r.produced == r.log.now.finals
    ensures flow.Proceed? && message.None? ==>
              env.aborted(r.clock) && r.log.now.phase == TurnOpen(final) && r.produced == s.produced
    ensures flow.Proceed? && message.Some? ==>
              && r.log.now.phase == Working(final, {}, {}) && r.produced == s.produced + [message.value]
              && message.value.Assistant? && (Tame(env) ==> DistinctCalls(CallsOf(message.value)))
  {
    r := Emit(s, TurnStart);
    message, flow := None, Proceed;
    if env.aborted(r.clock) { return; }
    ghost var asked, request;
    r, message, asked, request, flow := StreamAssistantResponse(env, r, final);
    if asked.Some? { MarksNext(env, c, s.log.now, request); }
    if flow.Proceed? && message.Some? {
      ContextGrows(s.context, s.log.now.marks.basis, s.log.now.finals, [message.value]);
      r := r.(produced := r.produced + [message.value]);
    }
  }

  // ----- The loop

  /**
   * The deliveries of a request join context and run, and the choice is made; a request for deliveries of
   * which none was committed goes no further. Then the host prepares the request.
   */
  method AdmitRequest(env: Env, ghost c: Claim, s: State, ask: Ask, action: Action)
    returns (r: State, ghost choice: Choice, admitted: bool, flow: Flow)
    requires Justified(env, c) && AtBoundary(env, c, s, Choosing(ask))
    requires action.Request? && action == Decision(env, ask) && ask.at <= s.clock && ask.produced == s.produced
    requires c.tame ==> UserAction(action)
    ensures CutShort(env, c, r) && !flow.Hung? && r.clock >= s.clock
    ensures flow.Proceed? ==> GoodChoice(env, ask, choice) && r.produced == choice.produced
    ensures flow.Proceed? ==> (admitted <==> LeadsOn(choice))
    ensures flow.Proceed? ==>
        if admitted then ReadyToStart(env, c, r, action.reason.ByFinalResponse?) else AtBoundary(env, c, r, Resting)
    ensures flow.Proceed? ==> Decided(ask, choice) in r.log.now.marks.events
    ensures NeverThrows(env) ==> !flow.Threw?
  {
    var taken;
    r, taken, flow := TakeDeliveries(env, c, s, ask, action);
    admitted, choice := LeadsOn(taken), taken;
    if !flow.Proceed? { return; }
    r := Decide(env, c, r, ask, taken);
    if admitted && !env.aborted(r.clock) { r := PrepareRequest(env, c, r); }
  }

  /** The run is ready for its next turn; its request was prepared, unless the run was aborted first. */
  ghost predicate ReadyToStart(env: Env, c: Claim, s: State, final: bool) {
    AtBoundary(env, c, s, Primed(final)) || (AtBoundary(env, c, s, Ready(final)) && env.aborted(s.clock))
  }

  /** The host prepares the request, and may supply another context for it and what follows. */
  method PrepareRequest(env: Env, ghost c: Claim, s: State) returns (r: State)
    requires s.log.now.phase.Ready? && AtBoundary(env, c, s, s.log.now.phase)
    ensures AtBoundary(env, c, r, Primed(s.log.now.phase.final))
    ensures var supplied := env.prepareRequest(s.clock);
            r.context == if supplied.Some? then supplied.value else s.context
    ensures r.log.now.marks.events == s.log.now.marks.events + [RequestPrepared(s.clock, env.prepareRequest(s.clock))]
    ensures r.clock > s.clock && r.produced == s.produced
  {
    var supplied := env.prepareRequest(s.clock);
    MarksNext(env, c, s.log.now, RequestPrepared(s.clock, supplied));
    r := Emit(s, RequestPrepared(s.clock, supplied));
    if supplied.Some? { r := r.(context := supplied.value); }
  }

  /** The committed deliveries of the action enter; what came of each of them makes the choice. */
  method TakeDeliveries(env: Env, ghost c: Claim, s: State, ask: Ask, action: Action)
    returns (r: State, choice: Choice, flow: Flow)
    requires Justified(env, c) && AtBoundary(env, c, s, Choosing(ask))
    requires action.Request? && action == Decision(env, ask) && ask.at <= s.clock && ask.produced == s.produced
    requires c.tame ==> UserAction(action)
    ensures CutShort(env, c, r) && !flow.Hung? && r.clock >= s.clock && r.log.now.marks == s.log.now.marks
    ensures flow.Proceed? ==> AtBoundary(env, c, r, Choosing(ask)) && GoodChoice(env, ask, choice)
    ensures choice.action == action && choice.produced == r.produced
    ensures NeverThrows(env) ==> !flow.Threw?
  {
    var added, asked, picked;
    ghost var stopped;
    r, added, asked, picked, stopped, flow := EmitDeliveries(env, s, action.deliveries);
    choice := Choice(action, asked, picked, r.produced, r.clock);
    if !flow.Proceed? { return; }
    if c.tame {
      DeliveredUsers(action.deliveries, picked);
      UsersReplayable(added);
      ReplayableConcat(s.produced, added);
    }
    ContextGrows(s.context, s.log.now.marks.basis, s.log.now.finals, added);
  }

  /** The choice is made. */
  method Decide(env: Env, ghost c: Claim, s: State, ask: Ask, choice: Choice) returns (r: State)
    requires AtBoundary(env, c, s, Choosing(ask)) && choice.produced == s.produced && GoodChoice(env, ask, choice)
    ensures AtBoundary(env, c, r, AfterChoice(ask, choice))
    ensures r.log.now.marks.events == s.log.now.marks.events + [Decided(ask, choice)]
    ensures r.clock >= s.clock && r.context == s.context && r.produced == s.produced
  {
    MarksNext(env, c, s.log.now, Decided(ask, choice));
    r := Emit(s, Decided(ask, choice));
  }

  /** The host is asked. */
  method AskHost(env: Env, ghost c: Claim, s: State, next: Next, ghost silent: bool) returns (r: State, ask: Ask)
    requires AtBoundary(env, c, s, Between(next, silent))
    ensures AtBoundary(env, c, r, Choosing(ask)) && ask == Ask(s.clock, next, s.produced)
    ensures r.clock > s.clock && r.context == s.context && r.produced == s.produced
  {
    ask := Ask(s.clock, next, s.produced);
    r := Emit(s, HostAsked(ask));
  }

  /** A host that pauses or stops ends the run. */
  method EndByChoice(env: Env, ghost c: Claim, s: State, ask: Ask, action: Action) returns (r: State)
    requires AtBoundary(env, c, s, Choosing(ask)) && !action.Request? && action == Decision(env, ask)
    requires ask.at <= s.clock && ask.produced == s.produced
    ensures Returned(env, c, r) && r.produced == s.produced
  {
    r := Decide(env, c, s, ask, Choice(action, [], [], s.produced, s.clock));
    r := EndRun(env, c, r);
  }

  /** The abort that is seen between turns closes the run with a cancelled turn, or silently. */
  method LeaveAtBoundary(env: Env, ghost c: Claim, s: State, marked: bool) returns (r: State, flow: Flow)
    requires ValidEnv(env) && env.aborted(s.clock)
    requires Faithful(s.log) && s.produced == s.log.now.finals && GoodMarks(env, c, s.log.now.marks)
    requires s.log.now.phase.Between? && s.log.now.phase.silent == !marked
    ensures !flow.Hung? && CutShort(env, c, r) && (flow.Proceed? ==> Returned(env, c, r))
    ensures NoReplacement(env) ==>
              flow.Proceed? && r.produced == s.produced + if marked then [Assistant(ABORTED_TURN)] else []
  {
    flow := Proceed;
    if marked { r, flow := AbortAndEnd(env, c, s); }
    else { r := LeaveSilently(env, c, s); }
  }

  /**
   * From the boundary to the next request: the host is asked, and the run goes on as it decides. Without a
   * request (`ready` is false) the run returned, or was cut short.
   */
  method ReachRequest(env: Env, ghost c: Claim, s: State, next: Next, completedTurn: bool)
    returns (r: State, ready: bool, final: bool, flow: Flow)
    requires Justified(env, c) && ValidEnv(env) && AtBoundary(env, c, s, Between(next, !completedTurn))
    requires c.tame ==> UserAction(next.default)
    ensures CutShort(env, c, r) && !flow.Hung? && (flow.Proceed? && !ready ==> Returned(env, c, r))
    ensures flow.Proceed? && ready ==> ReadyToStart(env, c, r, final) && (Must(next) ==> final)
    ensures NeverThrows(env) ==> !flow.Threw?
  {
    ready, final := false, false;
    if env.aborted(s.clock) {
      r, flow := LeaveAtBoundary(env, c, s, completedTurn);
      return;
    }
    var hostAction := env.nextAction(s.clock);
    var ask;
    r, ask := AskHost(env, c, s, next, !completedTurn);
    if env.aborted(r.clock) && completedTurn {
      r, flow := AbortAndEnd(env, c, r);
      return;
    }
    var answer := if hostAction.Some? then hostAction.value else next.default;
    var action := if next.authority.FinalAuthority? && !answer.Pause? then Request(ByFinalResponse, []) else answer;
    if !action.Request? {
      r := EndByChoice(env, c, r, ask, action);
      flow := Proceed;
      return;
    }
    ghost var choice;
    r, choice, ready, flow := AdmitRequest(env, c, r, ask, action);
    final := action.reason.ByFinalResponse?;
    if flow.Proceed? && !ready { r := EndRun(env, c, r); }
  }

  /**
   * `runDispatchedLoop`, observed for at most `horizon` requests: it returned normally, threw, or has
   * not come back.
   */
  method RunDispatchedLoop(env: Env, ghost c: Claim, s: State, initialAction: Action, horizon: nat)
    returns (r: State, flow: Flow)
    requires Justified(env, c) && ValidEnv(env) && AtBoundary(env, c, s, Between(Next(Provider, initialAction), true))
    requires c.tame ==> UserAction(initialAction)
    ensures CutShort(env, c, r) && (flow.Proceed? ==> Returned(env, c, r))
    ensures NeverThrows(env) ==> !flow.Threw?
  {
    r := s;
    var completedTurn, next := false, Next(Provider, initialAction);
    for n := 0 to horizon
      invariant AtBoundary(env, c, r, Between(next, !completedTurn))
      invariant c.tame ==> UserAction(next.default)
    {
      var ready, final;
      r, ready, final, flow := ReachRequest(env, c, r, next, completedTurn);
      if !flow.Proceed? || !ready { return; }
      var report, abortedBefore;
      r, report, abortedBefore, flow := RunTurn(env, c, r, final);
      if !flow.Proceed? || report.returned { return; }
      completedTurn := true;
      if env.aborted(r.clock) {
        r, flow := LeaveAtBoundary(env, c, r, report.calls > 0 || !abortedBefore);
        return;
      }
      BoundaryAgain(env, c, r, final, report, abortedBefore);
      next := AfterTurn(final, report.calls, report.disposition);
    }
    flow := Hung;
  }

  /** A run with prompts starts with a request to deliver them, one without with a continuation. */
  function FirstAction(prompts: seq<Message>): Action {
    if |prompts| > 0 then Request(ByDelivery, [prompts]) else Request(ByContinuation, [])
  }

  /** What a run leaves in its trace, whatever became of it. */
  ghost predicate GoodTrace(env: Env, prompts: seq<Message>, initial: seq<Message>, trace: seq<Event>) {
    && Check(trace) != Bad
    && trace != [] && trace[0] == AgentStart(FirstAction(prompts), initial)
    && GoodEvents(env, prompts, initial, trace)
  }

  ghost predicate GoodEvents(env: Env, prompts: seq<Message>, initial: seq<Message>, trace: seq<Event>) {
    && (forall e :: e in trace && e.Decided? ==> GoodChoice(env, e.ask, e.choice))
    && (forall e :: e in trace && e.TurnEnd? ==> GoodTurn(env, e.message, e.results, e.note))
    && (forall e :: e in trace && e.AbortSeen? ==> env.aborted(e.at))
    && (forall e :: e in trace && e.Dispatch? ==> SentAsConverted(env, e.context, e.at, e.sent))
    && (forall e :: e in trace && e.RequestPrepared? ==> e.supplied == env.prepareRequest(e.at))
    && (Tame(env) && AllUsers(prompts) ==> forall e :: e in trace && e.Dispatch? ==> Replayable(e.produced))
  }

  /** The run returned: it reports the messages it finalized, in order. */
  ghost predicate Finished(trace: seq<Event>, produced: seq<Message>) {
    && Check(trace) == Done && produced == Finalized(trace)
    && trace != [] && trace[|trace| - 1] == AgentEnd(produced)
  }

  /**
   * `runAgentLoop`: the trace of every run is well formed, every choice is the host's, every turn is what
   * its tools said, and a run that returns normally reports the messages it finalized, in order.
   */
  method RunAgentLoop(env: Env, prompts: seq<Message>, initial: seq<Message>, horizon: nat)
    returns (trace: seq<Event>, produced: seq<Message>, flow: Flow)
    requires ValidEnv(env)
    ensures GoodTrace(env, prompts, initial, trace)
    ensures flow.Proceed? ==> Finished(trace, produced)
    ensures NeverThrows(env) ==> !flow.Threw?
  {
    ghost var c := Claim(initial, FirstAction(prompts), Tame(env) && AllUsers(prompts));
    var s := StartRun(env, c, initial, FirstAction(prompts));
    var r;
    r, flow := RunDispatchedLoop(env, c, s, FirstAction(prompts), horizon);
    RunReads(env, c, r, prompts);
    trace, produced := r.log.trace, r.produced;
  }

  /** `agent_start` */
  method StartRun(env: Env, ghost c: Claim, initial: seq<Message>, first: Action) returns (s: State)
    requires c.initial == initial && c.first == first
    ensures AtBoundary(env, c, s, Between(Next(Provider, first), true))
  {
    s := State(0, EMPTY_LOG, initial, []);
    s := Emit(s, AgentStart(first, initial));
    assert initial + [] == initial;
  }

  /** What the log of a run says of its trace. */
  lemma {:induction false} RunReads(env: Env, c: Claim, r: State, prompts: seq<Message>)
    requires CutShort(env, c, r) && c.first == FirstAction(prompts) && c.tame == (Tame(env) && AllUsers(prompts))
    ensures GoodTrace(env, prompts, c.initial, r.log.trace)
    ensures Returned(env, c, r) ==> Finished(r.log.trace, r.produced)
  {
    FaithfulMeans(r.log);
    ReadingIsGood(env, c, r.log.trace, r.log.now, prompts);
  }

  lemma {:induction false} ReadingIsGood(env: Env, c: Claim, trace: seq<Event>, now: Monitor, prompts: seq<Message>)
    requires now == Reading(trace) && now.phase != Bad && GoodMarks(env, c, now.marks)
    requires c.first == FirstAction(prompts) && c.tame == (Tame(env) && AllUsers(prompts))
    ensures GoodTrace(env, prompts, c.initial, trace)
  {
    MarksAreGood(env, c, trace);
    EventsGood(env, c, trace, prompts);
    StartIsFirst(trace, AgentStart(c.first, c.initial));
  }

  lemma {:induction false} MarksAreGood(env: Env, c: Claim, trace: seq<Event>)
    requires GoodMarks(env, c, Marked(Marks(trace), BasisOf(trace)))
    ensures AgentStart(c.first, c.initial) in trace && forall e :: e in trace && IsMark()(e) ==> GoodMark(env, c, e)
  {
    forall e | e in trace && IsMark()(e) ensures GoodMark(env, c, e) {
      assert e in Marks(trace);
    }
  }

  lemma {:induction false} StartIsFirst(trace: seq<Event>, start: Event)
    requires Check(trace) != Bad && start in trace && start.AgentStart?
    ensures trace[0] == start
  {
    var n :| 0 <= n < |trace| && trace[n] == start;
    WalkOf(trace);
    WalkStarts(trace, Phases(trace), n);
  }

  lemma {:induction false} EventsGood(env: Env, c: Claim, trace: seq<Event>, prompts: seq<Message>)
    requires forall e :: e in trace && IsMark()(e) ==> GoodMark(env, c, e)
    requires c.tame == (Tame(env) && AllUsers(prompts))
    ensures GoodEvents(env, prompts, c.initial, trace)
  {
    forall e | e in trace && e.Decided? ensures GoodChoice(env, e.ask, e.choice) { assert GoodMark(env, c, e); }
    forall e | e in trace && e.TurnEnd? ensures GoodTurn(env, e.message, e.results, e.note) {
      assert GoodMark(env, c, e);
    }
    forall e | e in trace && e.RequestPrepared? ensures e.supplied == env.prepareRequest(e.at) {
      assert GoodMark(env, c, e);
    }
    forall e | e in trace && e.AbortSeen? ensures env.aborted(e.at) { assert GoodMark(env, c, e); }
    forall e | e in trace && e.Dispatch? ensures GoodRequest(env, c, e) { assert GoodMark(env, c, e); }
  }

  /**
   * What a request finds: it goes back to a choice which is the host's, and since the host was asked the
   * run produced exactly the committed deliveries of that choice.
   */
  ghost predicate FindsChoice(env: Env, trace: seq<Event>, n: nat, i: int, j: int)
    requires n < |trace| && trace[n].Dispatch?
  {
    && ChosenBy(trace, n, i, j, trace[n].final)
    && var ask, choice := trace[i].ask, trace[j].choice;
       && choice.action == Decision(env, ask) && trace[n].produced == choice.produced
       && DealtWith(env, choice.action.deliveries, choice.asked, choice.picked, ask.at, choice.at)
       && (NoReplacement(env) ==>
             trace[n].produced == ask.produced + Delivered(choice.action.deliveries, choice.picked))
  }

  lemma {:induction false} RequestFinds(
      env: Env, prompts: seq<Message>, initial: seq<Message>, trace: seq<Event>, n: nat)
    requires GoodTrace(env, prompts, initial, trace) && n < |trace| && trace[n].Dispatch?
    ensures trace[n].produced == Finalized(trace[..n])
    ensures exists i, j :: FindsChoice(env, trace, n, i, j)
  {
    RequestSays(trace, n);
    RequestIsChosen(trace, n);
    var i, j :| ChosenBy(trace, n, i, j, trace[n].final) && trace[n].produced == trace[j].choice.produced;
    assert trace[j] in trace;
    assert FindsChoice(env, trace, n, i, j);
  }

  /** Where the host supplies no context, a request finds the initial messages followed by those of the run. */
  lemma {:induction false} UnpreparedContext(
      env: Env, prompts: seq<Message>, initial: seq<Message>, trace: seq<Event>, n: nat)
    requires GoodTrace(env, prompts, initial, trace) && NoOverride(env) && n < |trace| && trace[n].Dispatch?
    ensures trace[n].context == initial + trace[n].produced
  {
    RequestSays(trace, n);
    forall k | 0 <= k < n && trace[k].RequestPrepared? ensures trace[k].supplied.None? { assert trace[k] in trace; }
    WalkOf(trace);
    forall k | 0 < k < n ensures !trace[k].AgentStart? { WalkStarts(trace, Phases(trace), k); }
    InitialBasis(trace, n);
  }

  /**
   * What a tame run sends when nothing is supplied or converted: what the policy makes of the initial
   * messages, followed by the messages of the run as they are.
   */
  lemma {:induction false} SentTranscript(
      env: Env, prompts: seq<Message>, initial: seq<Message>, trace: seq<Event>, n: nat)
    requires GoodTrace(env, prompts, initial, trace) && Tame(env) && AllUsers(prompts) && NoOverride(env)
    requires n < |trace| && trace[n].Dispatch? && env.toLlm(trace[n].at, trace[n].context) == trace[n].context
    ensures trace[n].sent == Replay(env.feedback, initial) + trace[n].produced
  {
    UnpreparedContext(env, prompts, initial, trace, n);
    assert trace[n] in trace;
    RunAgainstReplay(env.feedback, initial, trace[n].produced);
  }

  /**
   * What becomes of the prompts: where the host leaves the first action alone and listeners replace
   * nothing, the first request finds exactly the prompts.
   */
  lemma {:induction false} FirstRequestHoldsPrompts(
      env: Env, prompts: seq<Message>, initial: seq<Message>, trace: seq<Event>, n: nat)
    requires GoodTrace(env, prompts, initial, trace) && NoReplacement(env)
    requires |trace| > 1 && trace[1].HostAsked? ==> env.nextAction(trace[1].ask.at).None?
    requires n < |trace| && trace[n].Dispatch? && forall k :: 0 <= k < n ==> !trace[k].TurnEnd?
    ensures trace[n].produced == prompts
  {
    RequestFinds(env, prompts, initial, trace, n);
    var i, j :| FindsChoice(env, trace, n, i, j);
    FirstAsk(trace, i);
    PromptsFound(env, prompts, trace, n, j);
  }

  lemma {:induction false} PromptsFound(env: Env, prompts: seq<Message>, trace: seq<Event>, n: nat, j: int)
    requires n < |trace| && trace[n].Dispatch? && FindsChoice(env, trace, n, 1, j)
    requires trace[1].ask == Ask(trace[1].ask.at, Next(Provider, FirstAction(prompts)), [])
    requires NoReplacement(env) && env.nextAction(trace[1].ask.at).None?
    ensures trace[n].produced == prompts
  {
    if prompts != [] { PickedOnly(prompts, trace[j].choice.picked); }
  }

  lemma {:induction false} PickedOnly(prompts: seq<Message>, picked: seq<nat>)
    requires Picks([prompts], picked) && picked != []
    ensures Delivered([prompts], picked) == prompts
  {
    assert picked[0] == picked[|picked| - 1] == 0;
    assert [] + [0] == picked;
    PickOne([prompts], [], 0);
  }

  // ----- The run against the replay policy

  /**
   * What a request of a tame run sends: the policy leaves the run's own messages alone, and replaying
   * the whole history is replaying the initial context followed by them.
   */
  lemma {:induction false} RunAgainstReplay(f: Feedback, initial: seq<Message>, produced: seq<Message>)
    requires Replayable(produced)
    ensures Replay(f, produced) == produced
    ensures Replay(f, initial + produced) == Replay(f, initial) + produced
  {
    FixedPoints(f, produced);
    ReplayConcat(f, initial, produced);
  }

  // ----- Dispositions

  /** How the dispositions of two parts of a batch combine, each with at least one call. */
  function Combine(a: Disposition, b: Disposition): Disposition {
    if a.FinalResponse? || b.FinalResponse? then FinalResponse
    else if a.StopRun? && b.StopRun? then StopRun
    else Continue
  }

  /** A batch may be reduced in parts: neither the cut nor the order of the parts matters. */
  lemma {:induction false} DispositionOfParts(a: seq<ToolOutcome>, b: seq<ToolOutcome>)
    requires a != [] && b != []
    ensures ReduceDisposition(a + b) == Combine(ReduceDisposition(a), ReduceDisposition(b))
    ensures ReduceDisposition(a + b) == ReduceDisposition(b + a)
  {
    DispositionOfConcat(a, b);
    DispositionOfConcat(b, a);
  }

  lemma {:induction false} DispositionOfConcat(a: seq<ToolOutcome>, b: seq<ToolOutcome>)
    requires a != [] && b != []
    ensures ReduceDisposition(a + b) == Combine(ReduceDisposition(a), ReduceDisposition(b))
  {
    var c := a + b;
    if i :| 0 <= i < |a| && !a[i].isError && a[i].disposition == Some(FinalResponse) { assert c[i] == a[i]; }
    if i :| 0 <= i < |b| && !b[i].isError && b[i].disposition == Some(FinalResponse) { assert c[|a| + i] == b[i]; }
    if forall i :: 0 <= i < |c| ==> c[i].disposition == Some(StopRun) {
      assert forall i :: 0 <= i < |a| ==> c[i] == a[i];
      assert forall i {:trigger b[i]} :: 0 <= i < |b| ==> c[|a| + i] == b[i];
    }
  }
}
