/** `BackendSupervisor`, `ActorHostCommandProcessor` and the promise job queue between them.

    A promise that settles queues its reactions; jobs run one at a time, first in first out. Where a
    value passes through further promises before a reply leaves, the number of those hops is left
    to the environment, caller by caller. */
module Supervisor {
  import opened HostMessages
  import opened JsonValues
  import opened Options

  datatype State = Uninitialized | Ready | Running | Stopping | Faulted

  /** Whether and how an adapter's promise has settled. */
  datatype Settlement = Open | Kept | Broken

  datatype Outcome<+T> = Fulfilled(value: T) | Refused

  datatype Completion = Completion(session: Option<SessionId>, process: ProcessFact)

  /** An `ActiveInvocation`, kept after it settles. `session` is its derived session promise once that
      has resolved; `awaiting` is a completion whose handler still waits for it. */
  datatype Exec = Exec(
    causal: MessageId, spec: InvocationSpec, settled: bool, completionSettled: bool,
    session: Option<Option<SessionId>>, awaiting: Option<Completion>,
    adapterSession: Settlement, adapterCompletion: Settlement, stopCalls: nat)

  datatype InitializeResult = Initialized | AlreadyReady | InitializeRejected(code: FaultCode) | ReservationLost

  /** Who awaits a reservation: the causal message and the actor its reply names. */
  datatype Caller = Caller(causal: MessageId, actor: ActorId)

  datatype Reservation = Reservation(launch: LaunchSpec, callers: seq<Caller>, adapter: Settlement, result: Option<InitializeResult>)

  datatype Job =
    | SessionReaction(exec: nat, session: Outcome<Option<SessionId>>)
    | CompletionReaction(exec: nat, completion: Outcome<Completion>)
    | CompletionResumes(exec: nat, discovered: Option<SessionId>, completed: Completion)
    | StopRefused(exec: nat)
    | Report(exec: nat, discoveredId: SessionId)
    | InitializationReaction(reservation: nat, kept: bool)
    | Reply(causal: MessageId, hops: nat, payload: HostPayload)

  /** How many more promises each of the replies that one job queues passes through. */
  type Hops = seq<nat>

  function HopsAt(hops: Hops, i: nat): nat {
    if i < |hops| then hops[i] else 0
  }

  /** What the processor hands to the outbound sink. */
  datatype Emission = Emission(causal: MessageId, payload: HostPayload)

  /** The supervisor's fields, everything it ever started or reserved, the job queue, and the commands
      dispatched and payloads emitted so far. */
  datatype Process = Process(
    identity: Identity, adapter: int,
    state: State, launchSpec: Option<LaunchSpec>, initialization: Option<nat>, active: Option<nat>, sessionId: Option<SessionId>,
    execs: seq<Exec>, reservations: seq<Reservation>, jobs: seq<Job>,
    commands: seq<ServerMessage>, emitted: seq<Emission>)

  function Born(identity: Identity, adapter: int): Process {
    Process(identity, adapter, Uninitialized, None, None, None, None, [], [], [], [], [])
  }

  /** What the adapter does with a synchronous call, and the hops to the reply. */
  datatype Env = Env(throws: bool, launchError: Option<int>, hops: Hops)

  function Emit(p: Process, causal: MessageId, payload: HostPayload): Process {
    p.(emitted := p.emitted + [Emission(causal, payload)])
  }

  function Queue(p: Process, jobs: seq<Job>): Process {
    p.(jobs := p.jobs + jobs)
  }

  // ---------------------------------------------------------------- settling an invocation

  function FailExec(p: Process, e: nat, code: FaultCode): Process {
    if p.active != Some(e) || e >= |p.execs| || p.execs[e].settled then p
    else
      var x := p.execs[e];
      Queue(p.(execs := p.execs[e := x.(settled := true, completionSettled := true)], active := None, state := Faulted),
            [Reply(x.causal, 0, HostFault(Some(x.spec.invocation), code))])
  }

  function ResultOf(x: Exec, discovered: Option<SessionId>, c: Completion): InvocationResult {
    InvocationResult(x.spec.project, x.spec.run, x.spec.actor, x.spec.invocation,
                     if discovered.Some? then discovered else c.session, c.process)
  }

  /** The derived session promise resolves: report it, and resume a completion that waits for it. */
  function ResolveSession(p: Process, e: nat, session: Option<SessionId>): Process
    requires e < |p.execs|
  {
    var x := p.execs[e];
    Queue(p.(execs := p.execs[e := x.(session := Some(session), awaiting := None)]),
          (if session.Some? then [Report(e, session.value)] else [])
          + (if x.awaiting.Some? then [CompletionResumes(e, session, x.awaiting.value)] else []))
  }

  function OnSession(p: Process, e: nat, outcome: Outcome<Option<SessionId>>): Process
    requires e < |p.execs|
  {
    match outcome
    case Refused => ResolveSession(FailExec(p, e, SessionObservationFailed), e, None)
    case Fulfilled(session) =>
      if p.execs[e].settled then ResolveSession(p, e, None)
      else ResolveSession(if session.Some? && p.active == Some(e) then p.(sessionId := session) else p, e, session)
  }

  function OnCompletion(p: Process, e: nat, outcome: Outcome<Completion>): Process
    requires e < |p.execs|
  {
    var x := p.execs[e].(completionSettled := true);
    match outcome
    case Refused => FailExec(p.(execs := p.execs[e := x]), e, CompletionObservationFailed)
    case Fulfilled(c) =>
      if x.session.Some? then Queue(p.(execs := p.execs[e := x]), [CompletionResumes(e, x.session.value, c)])
      else p.(execs := p.execs[e := x.(awaiting := Some(c))])
  }

  function OnResume(p: Process, e: nat, discovered: Option<SessionId>, c: Completion, hops: Hops): Process
    requires e < |p.execs|
  {
    var x := p.execs[e];
    if x.settled then p
    else
      var result := ResultOf(x, discovered, c);
      var noted := if result.session.Some? then p.(sessionId := result.session) else p;
      var finished := if p.active != Some(e) then noted
                      else noted.(execs := p.execs[e := x.(settled := true)], active := None, state := Ready);
      Queue(finished, [Reply(x.causal, HopsAt(hops, 0), ResultReport(result))])
  }

  // ---------------------------------------------------------------- initialization

  predicate SameConfiguration(a: LaunchSpec, b: LaunchSpec) {
    a.project == b.project && a.actor == b.actor && a.snapshot == b.snapshot && SameJsonValue(a.document, b.document)
  }

  function InitializePayload(actor: ActorId, result: InitializeResult): HostPayload {
    match result
    case Initialized => HostReady(actor)
    case AlreadyReady => HostReady(actor)
    case InitializeRejected(code) => HostFault(None, code)
    case ReservationLost => HostFault(None, InitializationFailed)
  }

  function RepliesTo(callers: seq<Caller>, result: InitializeResult, hops: Hops): (jobs: seq<Job>)
    ensures |jobs| == |callers|
    ensures forall i | 0 <= i < |callers| :: jobs[i] == Reply(callers[i].causal, HopsAt(hops, i), InitializePayload(callers[i].actor, result))
  {
    seq(|callers|, i requires 0 <= i < |callers| => Reply(callers[i].causal, HopsAt(hops, i), InitializePayload(callers[i].actor, result)))
  }

  function Resolve(p: Process, r: nat, result: InitializeResult, hops: Hops): Process
    requires r < |p.reservations|
  {
    var reservation := p.reservations[r];
    Queue(p.(reservations := p.reservations[r := reservation.(result := Some(result))]),
          RepliesTo(reservation.callers, result, hops))
  }

  function Answer(p: Process, caller: Caller, result: InitializeResult, hops: Hops): Process {
    Queue(p, [Reply(caller.causal, HopsAt(hops, 0), InitializePayload(caller.actor, result))])
  }

  /** `initialize` on the supervisor. */
  function SupervisorInitialize(p: Process, caller: Caller, launch: LaunchSpec, env: Env): Process {
    if p.adapter != launch.adapter then Answer(p, caller, InitializeRejected(AdapterMismatch), env.hops)
    else if p.state == Faulted then Answer(p, caller, InitializeRejected(Quarantined), env.hops)
    else if p.launchSpec.Some? then
      Answer(p, caller, if SameConfiguration(p.launchSpec.value, launch) then AlreadyReady else InitializeRejected(IdentityMismatch), env.hops)
    else if p.initialization.Some? && p.initialization.value < |p.reservations| then
      var held := p.reservations[p.initialization.value];
      if !SameConfiguration(held.launch, launch) then Answer(p, caller, InitializeRejected(IdentityMismatch), env.hops)
      else Join(p, p.initialization.value, caller)
    else Reserve(p, caller, launch, env)
  }

  function Join(p: Process, r: nat, caller: Caller): Process
    requires r < |p.reservations|
  {
    var held := p.reservations[r];
    p.(reservations := p.reservations[r := held.(callers := held.callers + [caller])])
  }

  /** A new reservation, and the adapter's `initialize` call it makes at once. */
  function Reserve(p: Process, caller: Caller, launch: LaunchSpec, env: Env): Process {
    var adapter := if env.throws then Broken else Open;
    var reserved := p.(reservations := p.reservations + [Reservation(launch, [caller], adapter, None)],
                       initialization := Some(|p.reservations|));
    if env.throws then OnInitialized(reserved, |p.reservations|, false, env.hops) else reserved
  }

  /** `runInitialization` after the adapter's promise settled. */
  function OnInitialized(p: Process, r: nat, kept: bool, hops: Hops): Process
    requires r < |p.reservations|
  {
    if !kept then
      Resolve(if p.initialization == Some(r) then p.(initialization := None) else p, r, InitializeRejected(InitializationFailed), hops)
    else if p.initialization != Some(r) then Resolve(p, r, ReservationLost, hops)
    else
      Resolve(p.(initialization := None, launchSpec := Some(p.reservations[r].launch), sessionId := None, state := Ready),
              r, Initialized, hops)
  }

  // ---------------------------------------------------------------- commands

  function DispatchInitialize(p: Process, causal: MessageId, launch: LaunchSpec, env: Env): Process {
    if launch.project != p.identity.project || launch.actor != p.identity.actor
    then Emit(p, causal, HostFault(None, IdentityMismatch))
    else SupervisorInitialize(p, Caller(causal, launch.actor), launch, env)
  }

  /** Why the supervisor refuses a start before it asks the adapter. */
  function StartRefusal(p: Process, spec: InvocationSpec): Option<FaultCode> {
    if p.state == Uninitialized || p.launchSpec.None? then Some(NotInitialized)
    else if p.state == Faulted then Some(Quarantined)
    else if p.state == Running || p.state == Stopping then Some(Busy)
    else if spec.project != p.launchSpec.value.project || spec.actor != p.launchSpec.value.actor then Some(IdentityMismatch)
    else None
  }

  function DispatchStart(p: Process, causal: MessageId, spec: InvocationSpec, env: Env): Process {
    if spec.project != p.identity.project || spec.actor != p.identity.actor
    then Emit(p, causal, HostFault(Some(spec.invocation), IdentityMismatch))
    else match StartRefusal(p, spec)
         case Some(code) => Emit(p, causal, HostFault(Some(spec.invocation), code))
         case None =>
           match env.launchError
           case Some(error) =>
             Emit(p, causal, ResultReport(InvocationResult(spec.project, spec.run, spec.actor, spec.invocation, None, LaunchFailed(error))))
           case None =>
             p.(execs := p.execs + [Exec(causal, spec, false, false, None, None, Open, Open, 0)], active := Some(|p.execs|), state := Running)
  }

  /** Why the supervisor refuses a stop. */
  function StopRefusal(p: Process, target: InvocationId): Option<FaultCode> {
    if p.state == Uninitialized || p.launchSpec.None? then Some(NotInitialized)
    else if p.active.None? || p.active.value >= |p.execs| then Some(NoActiveInvocation)
    else if p.execs[p.active.value].spec.invocation != target then Some(InvocationMismatch)
    else None
  }

  function DispatchStop(p: Process, causal: MessageId, target: InvocationId, env: Env): Process {
    match StopRefusal(p, target)
    case Some(code) => Emit(p, causal, HostFault(Some(target), code))
    case None =>
      var e := p.active.value;
      var x := p.execs[e];
      if x.completionSettled || p.state == Stopping then p
      else
        var asked := p.(state := Stopping, execs := p.execs[e := x.(stopCalls := x.stopCalls + 1)]);
        if env.throws then FailExec(asked, e, AdapterStopFailed) else asked
  }

  /** `process`, after the command was acknowledged. */
  function Dispatch(p: Process, m: ServerMessage, env: Env): Process {
    var seen := p.(commands := p.commands + [m]);
    match m.payload
    case InitializeActorHost(launch) => DispatchInitialize(seen, m.id, launch, env)
    case StartInvocation(spec) => DispatchStart(seen, m.id, spec, env)
    case StopInvocation(target) => DispatchStop(seen, m.id, target, env)
    case _ => seen
  }

  // ---------------------------------------------------------------- jobs and settlements

  datatype Event =
    | Command(message: ServerMessage, env: Env)
    | RunJob(hops: Hops)
    | SessionSettles(exec: nat, session: Outcome<Option<SessionId>>)
    | CompletionSettles(exec: nat, completion: Outcome<Completion>)
    | StopIsRefused(exec: nat)
    | AdapterInitialized(reservation: nat, kept: bool)

  function SettlementOf<T>(o: Outcome<T>): Settlement {
    if o.Fulfilled? then Kept else Broken
  }

  predicate JobInRange(p: Process, j: Job) {
    match j
    case SessionReaction(e, _) => e < |p.execs|
    case CompletionReaction(e, _) => e < |p.execs|
    case CompletionResumes(e, _, _) => e < |p.execs|
    case StopRefused(e) => e < |p.execs|
    case Report(e, _) => e < |p.execs|
    case InitializationReaction(r, _) => r < |p.reservations|
    case Reply(_, _, _) => true
  }

  /** Events the environment may cause: each adapter promise settles once, a stop promise only exists
      after `stop` was called, and command ids are new. */
  predicate Enabled(p: Process, ev: Event) {
    match ev
    case Command(m, _) => !m.payload.ServerAck? && forall c | c in p.commands :: c.id != m.id
    case RunJob(_) => p.jobs != [] && JobInRange(p, p.jobs[0])
    case SessionSettles(e, _) => e < |p.execs| && p.execs[e].adapterSession == Open
    case CompletionSettles(e, _) => e < |p.execs| && p.execs[e].adapterCompletion == Open
    case StopIsRefused(e) => e < |p.execs| && p.execs[e].stopCalls > 0
    case AdapterInitialized(r, _) => r < |p.reservations| && p.reservations[r].adapter == Open
  }

  function RunHead(p: Process, hops: Hops): Process
    requires p.jobs != [] && JobInRange(p, p.jobs[0])
  {
    var rest := p.(jobs := p.jobs[1..]);
    match p.jobs[0]
    case SessionReaction(e, outcome) => OnSession(rest, e, outcome)
    case CompletionReaction(e, outcome) => OnCompletion(rest, e, outcome)
    case CompletionResumes(e, discovered, c) => OnResume(rest, e, discovered, c, hops)
    case StopRefused(e) => FailExec(rest, e, AdapterStopFailed)
    case Report(e, s) => Emit(rest, p.execs[e].causal, SessionReport(p.execs[e].spec.invocation, s))
    case InitializationReaction(r, kept) => OnInitialized(rest, r, kept, hops)
    case Reply(causal, left, payload) =>
      if left > 0 then Queue(rest, [Reply(causal, left - 1, payload)]) else Emit(rest, causal, payload)
  }

  function Step(p: Process, ev: Event): Process
    requires Enabled(p, ev)
  {
    match ev
    case Command(m, env) => Dispatch(p, m, env)
    case RunJob(hops) => RunHead(p, hops)
    case SessionSettles(e, outcome) =>
      Queue(p.(execs := p.execs[e := p.execs[e].(adapterSession := SettlementOf(outcome))]), [SessionReaction(e, outcome)])
    case CompletionSettles(e, outcome) =>
      Queue(p.(execs := p.execs[e := p.execs[e].(adapterCompletion := SettlementOf(outcome))]), [CompletionReaction(e, outcome)])
    case StopIsRefused(e) => Queue(p, [StopRefused(e)])
    case AdapterInitialized(r, kept) =>
      Queue(p.(reservations := p.reservations[r := p.reservations[r].(adapter := if kept then Kept else Broken)]),
            [InitializationReaction(r, kept)])
  }
}
