/** What every step of the supervisor keeps about its state, its invocations and its initialization. */
module SupervisorStates {
  import opened HostMessages
  import opened Supervisor
  import opened Options

  // ---------------------------------------------------------------- the state and the active invocation

  ghost predicate IsBusy(s: State) { s == Running || s == Stopping }

  /** An invocation is active exactly while the supervisor is running or stopping, and it is the only
      one that has not settled. */
  ghost predicate ActiveOk(p: Process) {
    && (p.active.Some? <==> IsBusy(p.state))
    && (p.active.Some? ==> p.active.value < |p.execs| && !p.execs[p.active.value].settled)
    && (forall e | 0 <= e < |p.execs| && !p.execs[e].settled :: p.active == Some(e))
    && (p.launchSpec.Some? <==> p.state != Uninitialized)
    && (p.initialization.Some? ==> p.launchSpec.None?)
  }

  /** An execution is stopped at most once, and a stop is under way exactly while stopping. */
  ghost predicate StopsOk(p: Process) {
    && (forall x | x in p.execs :: x.stopCalls <= 1)
    && (p.active.Some? && p.active.value < |p.execs| ==>
          p.execs[p.active.value].stopCalls == if p.state == Stopping then 1 else 0)
  }

  ghost predicate CompletionKnown(p: Process, j: Job) {
    && JobInRange(p, j)
    && (j.CompletionReaction? && j.completion.Fulfilled? ==> p.execs[j.exec].adapterCompletion == Kept)
    && (j.CompletionResumes? ==> p.execs[j.exec].adapterCompletion == Kept)
  }

  /** Unless faulted, every settled invocation's completion was fulfilled. */
  ghost predicate CompletionsOk(p: Process) {
    && (p.state != Faulted ==> forall x | x in p.execs && x.settled :: x.adapterCompletion == Kept)
    && (forall x | x in p.execs && x.awaiting.Some? :: x.adapterCompletion == Kept)
    && (forall j | j in p.jobs :: CompletionKnown(p, j))
  }

  ghost predicate StatesOk(p: Process) {
    ActiveOk(p) && StopsOk(p) && CompletionsOk(p)
  }

  lemma FailExecStates(p: Process, e: nat, code: FaultCode)
    requires StatesOk(p)
    ensures StatesOk(FailExec(p, e, code)) && |FailExec(p, e, code).execs| == |p.execs|
  {}

  lemma ResolveSessionStates(p: Process, e: nat, session: Option<SessionId>)
    requires StatesOk(p) && e < |p.execs|
    ensures StatesOk(ResolveSession(p, e, session))
  {}

  lemma OnSessionStates(p: Process, e: nat, outcome: Outcome<Option<SessionId>>)
    requires StatesOk(p) && e < |p.execs|
    ensures StatesOk(OnSession(p, e, outcome))
  {
    match outcome
    case Refused =>
      FailExecStates(p, e, SessionObservationFailed);
      ResolveSessionStates(FailExec(p, e, SessionObservationFailed), e, None);
    case Fulfilled(session) =>
      ResolveSessionStates(p, e, None);
      ResolveSessionStates(if session.Some? && p.active == Some(e) then p.(sessionId := session) else p, e, session);
  }

  lemma OnCompletionStates(p: Process, e: nat, outcome: Outcome<Completion>)
    requires StatesOk(p) && e < |p.execs| && CompletionKnown(p, CompletionReaction(e, outcome))
    ensures StatesOk(OnCompletion(p, e, outcome))
  {
    match outcome
    case Refused =>
      SettledCompletionStates(p, e);
      FailExecStates(p.(execs := p.execs[e := p.execs[e].(completionSettled := true)]), e, CompletionObservationFailed);
    case Fulfilled(c) => FulfilledStates(p, e, c);
  }

  lemma SettledCompletionStates(p: Process, e: nat)
    requires StatesOk(p) && e < |p.execs|
    ensures StatesOk(p.(execs := p.execs[e := p.execs[e].(completionSettled := true)]))
  {
    var marked := p.(execs := p.execs[e := p.execs[e].(completionSettled := true)]);
    assert forall x | x in marked.execs :: x == marked.execs[e] || x in p.execs;
  }

  lemma FulfilledStates(p: Process, e: nat, c: Completion)
    requires StatesOk(p) && e < |p.execs| && p.execs[e].adapterCompletion == Kept
    ensures StatesOk(OnCompletion(p, e, Fulfilled(c)))
  {
    FulfilledIsBusy(p, e, c);
    FulfilledCompletions(p, e, c);
  }

  lemma FulfilledIsBusy(p: Process, e: nat, c: Completion)
    requires ActiveOk(p) && StopsOk(p) && e < |p.execs|
    ensures ActiveOk(OnCompletion(p, e, Fulfilled(c))) && StopsOk(OnCompletion(p, e, Fulfilled(c)))
  {
    var p' := OnCompletion(p, e, Fulfilled(c));
    assert forall x | x in p'.execs :: x == p'.execs[e] || x in p.execs;
  }

  lemma FulfilledCompletions(p: Process, e: nat, c: Completion)
    requires CompletionsOk(p) && e < |p.execs| && p.execs[e].adapterCompletion == Kept
    ensures CompletionsOk(OnCompletion(p, e, Fulfilled(c)))
  {
    var p' := OnCompletion(p, e, Fulfilled(c));
    assert forall x | x in p'.execs :: x == p'.execs[e] || x in p.execs;
    forall j | j in p'.jobs ensures CompletionKnown(p', j) {
      if j in p.jobs { assert CompletionKnown(p, j); }
    }
  }

  lemma OnResumeStates(p: Process, e: nat, discovered: Option<SessionId>, c: Completion, hops: Hops)
    requires StatesOk(p) && e < |p.execs| && p.execs[e].adapterCompletion == Kept
    ensures StatesOk(OnResume(p, e, discovered, c, hops))
  {}

  lemma ResolveStates(p: Process, r: nat, result: InitializeResult, hops: Hops)
    requires StatesOk(p) && r < |p.reservations|
    ensures StatesOk(Resolve(p, r, result, hops))
  {
    var p' := Resolve(p, r, result, hops);
    forall j | j in p'.jobs ensures CompletionKnown(p', j) {
      if j !in p.jobs { assert j.Reply?; }
    }
  }

  lemma OnInitializedStates(p: Process, r: nat, kept: bool, hops: Hops)
    requires StatesOk(p) && r < |p.reservations|
    ensures StatesOk(OnInitialized(p, r, kept, hops))
  {
    if !kept {
      ResolveStates(if p.initialization == Some(r) then p.(initialization := None) else p, r, InitializeRejected(InitializationFailed), hops);
    } else if p.initialization != Some(r) {
      ResolveStates(p, r, ReservationLost, hops);
    } else {
      ResolveStates(p.(initialization := None, launchSpec := Some(p.reservations[r].launch), sessionId := None, state := Ready), r, Initialized, hops);
    }
  }

  lemma ReserveStates(p: Process, caller: Caller, launch: LaunchSpec, env: Env)
    requires StatesOk(p) && p.launchSpec.None?
    ensures StatesOk(Reserve(p, caller, launch, env))
  {
    var r := |p.reservations|;
    if env.throws {
      var reserved := p.(reservations := p.reservations + [Reservation(launch, [caller], Broken, None)], initialization := Some(r));
      OnInitializedStates(reserved, r, false, env.hops);
    }
  }

  lemma SupervisorInitializeStates(p: Process, caller: Caller, launch: LaunchSpec, env: Env)
    requires StatesOk(p)
    ensures StatesOk(SupervisorInitialize(p, caller, launch, env))
  {
    if p.launchSpec.None? { ReserveStates(p, caller, launch, env); }
  }

  lemma DispatchStartStates(p: Process, causal: MessageId, spec: InvocationSpec, env: Env)
    requires StatesOk(p)
    ensures StatesOk(DispatchStart(p, causal, spec, env))
  {}

  lemma DispatchStopStates(p: Process, causal: MessageId, target: InvocationId, env: Env)
    requires StatesOk(p)
    ensures StatesOk(DispatchStop(p, causal, target, env))
  {
    if StopRefusal(p, target).None? {
      var e := p.active.value;
      var x := p.execs[e];
      if !x.completionSettled && p.state != Stopping {
        var asked := p.(state := Stopping, execs := p.execs[e := x.(stopCalls := x.stopCalls + 1)]);
        assert StatesOk(asked);
        FailExecStates(asked, e, AdapterStopFailed);
      }
    }
  }

  lemma RestStates(p: Process, rest: Process)
    requires StatesOk(p) && p.jobs != [] && rest == p.(jobs := p.jobs[1..])
    ensures StatesOk(rest) && CompletionKnown(p, p.jobs[0])
  {
    forall j | j in rest.jobs ensures CompletionKnown(rest, j) {
      assert CompletionKnown(p, j);
    }
  }

  lemma RunHeadStates(p: Process, hops: Hops)
    requires StatesOk(p) && p.jobs != []
    ensures JobInRange(p, p.jobs[0]) && StatesOk(RunHead(p, hops))
  {
    var rest := p.(jobs := p.jobs[1..]);
    RestStates(p, rest);
    match p.jobs[0]
    case SessionReaction(e, outcome) => OnSessionStates(rest, e, outcome);
    case CompletionReaction(e, outcome) => OnCompletionStates(rest, e, outcome);
    case CompletionResumes(e, discovered, c) => OnResumeStates(rest, e, discovered, c, hops);
    case StopRefused(e) => FailExecStates(rest, e, AdapterStopFailed);
    case Report(_, _) =>
    case InitializationReaction(r, kept) => OnInitializedStates(rest, r, kept, hops);
    case Reply(_, _, _) =>
  }

  lemma DispatchStates(p: Process, m: ServerMessage, env: Env)
    requires StatesOk(p)
    ensures StatesOk(Dispatch(p, m, env))
  {
    var seen := p.(commands := p.commands + [m]);
    assert StatesOk(seen);
    match m.payload
    case InitializeActorHost(launch) => SupervisorInitializeStates(seen, Caller(m.id, launch.actor), launch, env);
    case StartInvocation(spec) => DispatchStartStates(seen, m.id, spec, env);
    case StopInvocation(target) => DispatchStopStates(seen, m.id, target, env);
    case _ =>
  }

  lemma StepStates(p: Process, ev: Event)
    requires StatesOk(p) && Enabled(p, ev)
    ensures StatesOk(Step(p, ev))
  {
    match ev
    case Command(m, env) => DispatchStates(p, m, env);
    case RunJob(hops) => RunHeadStates(p, hops);
    case SessionSettles(e, outcome) => SessionSettlesStates(p, e, outcome);
    case CompletionSettles(e, outcome) => CompletionSettlesStates(p, e, outcome);
    case StopIsRefused(e) => ReactionQueuedStates(p, StopRefused(e));
    case AdapterInitialized(r, kept) => AdapterInitializedStates(p, r, kept);
  }

  lemma ReactionQueuedStates(p: Process, j: Job)
    requires StatesOk(p) && CompletionKnown(p, j)
    ensures StatesOk(Queue(p, [j]))
  {}

  lemma SessionSettlesStates(p: Process, e: nat, outcome: Outcome<Option<SessionId>>)
    requires StatesOk(p) && Enabled(p, SessionSettles(e, outcome))
    ensures StatesOk(Step(p, SessionSettles(e, outcome)))
  {}

  lemma AdapterInitializedStates(p: Process, r: nat, kept: bool)
    requires StatesOk(p) && Enabled(p, AdapterInitialized(r, kept))
    ensures StatesOk(Step(p, AdapterInitialized(r, kept)))
  {}

  lemma CompletionSettlesStates(p: Process, e: nat, outcome: Outcome<Completion>)
    requires StatesOk(p) && Enabled(p, CompletionSettles(e, outcome))
    ensures StatesOk(Step(p, CompletionSettles(e, outcome)))
  {
    var x := p.execs[e];
    assert x in p.execs;
  }

  // ---------------------------------------------------------------- initialization

  const FAILED_INITIALIZATION := InitializeRejected(InitializationFailed)

  /** Only the last reservation is ever unresolved, and every earlier one failed. */
  ghost predicate ReservationsOk(p: Process) {
    var n := |p.reservations|;
    && (p.initialization.Some? ==> n > 0 && p.initialization.value == n - 1)
    && (forall r | 0 <= r < n :: p.reservations[r].result.None? <==> p.initialization == Some(r))
    && (forall r | 0 <= r < n - 1 :: p.reservations[r].adapter == Broken && p.reservations[r].result == Some(FAILED_INITIALIZATION))
    && (n > 0 && p.initialization.None? ==>
          var last := p.reservations[n - 1];
          if p.launchSpec.Some? then last.adapter == Kept && last.result == Some(Initialized) && p.launchSpec.value == last.launch
          else last.adapter == Broken && last.result == Some(FAILED_INITIALIZATION))
    && (p.launchSpec.Some? ==> n > 0 && p.initialization.None?)
  }

  /** A queued reaction belongs to the reservation still held, reports how its adapter call settled,
      and is the only one. */
  ghost predicate ReactionsOk(p: Process) {
    && (forall j | j in p.jobs && j.InitializationReaction? ::
          && p.initialization == Some(j.reservation) && j.reservation < |p.reservations|
          && p.reservations[j.reservation].adapter == (if j.kept then Kept else Broken))
    && (forall i, k | 0 <= i < k < |p.jobs| :: !(p.jobs[i].InitializationReaction? && p.jobs[k].InitializationReaction?))
  }

  ghost predicate InitializationOk(p: Process) {
    ReservationsOk(p) && ReactionsOk(p)
  }

  /** `p'` queued jobs of other kinds and left everything about initialization alone. */
  ghost predicate InitializationUntouched(p: Process, p': Process) {
    && p'.reservations == p.reservations && p'.initialization == p.initialization && p'.launchSpec == p.launchSpec
    && p.jobs <= p'.jobs
    && forall i | |p.jobs| <= i < |p'.jobs| :: !p'.jobs[i].InitializationReaction?
  }

  lemma MoreJobsKeepReactions(p: Process, p': Process)
    requires ReactionsOk(p) && p.jobs <= p'.jobs && p'.initialization == p.initialization
    requires forall i | |p.jobs| <= i < |p'.jobs| :: !p'.jobs[i].InitializationReaction?
    requires |p'.reservations| == |p.reservations|
    requires forall r | 0 <= r < |p.reservations| :: p'.reservations[r].adapter == p.reservations[r].adapter
    ensures ReactionsOk(p')
  {
    forall j | j in p'.jobs && j.InitializationReaction? ensures j in p.jobs {
      var i :| 0 <= i < |p'.jobs| && p'.jobs[i] == j;
      assert p.jobs[i] == j;
    }
  }

  lemma UntouchedKeepsInitialization(p: Process, p': Process)
    requires InitializationOk(p) && InitializationUntouched(p, p')
    ensures InitializationOk(p')
  {
    MoreJobsKeepReactions(p, p');
  }

  lemma SettlingLeavesInitialization(p: Process, e: nat, session: Outcome<Option<SessionId>>, completion: Outcome<Completion>)
    requires e < |p.execs|
    ensures InitializationUntouched(p, OnSession(p, e, session))
    ensures InitializationUntouched(p, OnCompletion(p, e, completion))
  {}

  lemma ResumingLeavesInitialization(p: Process, e: nat, discovered: Option<SessionId>, c: Completion, hops: Hops, code: FaultCode)
    requires e < |p.execs|
    ensures InitializationUntouched(p, OnResume(p, e, discovered, c, hops))
    ensures InitializationUntouched(p, FailExec(p, e, code))
  {}

  lemma OtherCommandsLeaveInitialization(p: Process, m: ServerMessage, env: Env)
    requires !m.payload.InitializeActorHost?
    ensures InitializationUntouched(p, Dispatch(p, m, env))
  {}

  /** The reservation whose adapter call settled is still held: none is ever lost. */
  lemma OnInitializedInitialization(p: Process, r: nat, kept: bool, hops: Hops)
    requires ReservationsOk(p) && ActiveOk(p) && r < |p.reservations| && p.initialization == Some(r)
    requires p.reservations[r].adapter == (if kept then Kept else Broken)
    requires forall j | j in p.jobs :: !j.InitializationReaction?
    ensures InitializationOk(OnInitialized(p, r, kept, hops))
    ensures OnInitialized(p, r, kept, hops).reservations[r].result == Some(if kept then Initialized else FAILED_INITIALIZATION)
  {
    var p' := OnInitialized(p, r, kept, hops);
    forall j | j in p'.jobs ensures !j.InitializationReaction? {
      if j !in p.jobs { assert j.Reply?; }
    }
    forall i | 0 <= i < |p'.jobs| ensures !p'.jobs[i].InitializationReaction? {
      assert p'.jobs[i] in p'.jobs;
    }
  }

  /** A new reservation is made only when none is held and none succeeded, so all before it failed. */
  lemma ReserveKeeps(p: Process, launch: LaunchSpec, callers: seq<Caller>, adapter: Settlement)
    requires InitializationOk(p) && p.launchSpec.None? && p.initialization.None?
    ensures var p' := p.(reservations := p.reservations + [Reservation(launch, callers, adapter, None)], initialization := Some(|p.reservations|));
            InitializationOk(p') && forall j | j in p.jobs :: !j.InitializationReaction?
  {
    forall j | j in p.jobs ensures !j.InitializationReaction? {}
    forall i | 0 <= i < |p.jobs| ensures !p.jobs[i].InitializationReaction? {
      assert p.jobs[i] in p.jobs;
    }
  }

  lemma ReserveInitialization(p: Process, caller: Caller, launch: LaunchSpec, env: Env)
    requires InitializationOk(p) && ActiveOk(p) && p.launchSpec.None? && p.initialization.None?
    ensures InitializationOk(Reserve(p, caller, launch, env))
  {
    ReserveKeeps(p, launch, [caller], if env.throws then Broken else Open);
    if env.throws {
      var r := |p.reservations|;
      var reserved := p.(reservations := p.reservations + [Reservation(launch, [caller], Broken, None)], initialization := Some(r));
      OnInitializedInitialization(reserved, r, false, env.hops);
    }
  }

  lemma JoinInitialization(p: Process, r: nat, caller: Caller)
    requires InitializationOk(p) && r < |p.reservations| && p.initialization == Some(r)
    ensures InitializationOk(Join(p, r, caller))
  {
    MoreJobsKeepReactions(p, Join(p, r, caller));
  }

  lemma SupervisorInitializeInitialization(p: Process, caller: Caller, launch: LaunchSpec, env: Env)
    requires InitializationOk(p) && ActiveOk(p)
    ensures InitializationOk(SupervisorInitialize(p, caller, launch, env))
  {
    forall result ensures InitializationOk(Answer(p, caller, result, env.hops)) {
      UntouchedKeepsInitialization(p, Answer(p, caller, result, env.hops));
    }
    if p.launchSpec.None? {
      if p.initialization.None? { ReserveInitialization(p, caller, launch, env); }
      else { JoinInitialization(p, p.initialization.value, caller); }
    }
  }

  lemma RestOk(p: Process, rest: Process)
    requires InitializationOk(p) && p.jobs != [] && rest == p.(jobs := p.jobs[1..])
    ensures InitializationOk(rest)
    ensures p.jobs[0].InitializationReaction? ==> forall j | j in rest.jobs :: !j.InitializationReaction?
  {
    forall j | j in rest.jobs ensures j in p.jobs && !(p.jobs[0].InitializationReaction? && j.InitializationReaction?) {
      var k :| 0 <= k < |rest.jobs| && rest.jobs[k] == j;
      assert p.jobs[k + 1] == j;
    }
  }

  lemma RunHeadInitialization(p: Process, hops: Hops)
    requires InitializationOk(p) && StatesOk(p) && p.jobs != [] && JobInRange(p, p.jobs[0])
    ensures InitializationOk(RunHead(p, hops))
  {
    var rest := p.(jobs := p.jobs[1..]);
    RestOk(p, rest);
    match p.jobs[0]
    case SessionReaction(e, outcome) => SettlingLeavesInitialization(rest, e, outcome, Refused); UntouchedKeepsInitialization(rest, RunHead(p, hops));
    case CompletionReaction(e, outcome) => SettlingLeavesInitialization(rest, e, Refused, outcome); UntouchedKeepsInitialization(rest, RunHead(p, hops));
    case CompletionResumes(e, discovered, c) =>
      ResumingLeavesInitialization(rest, e, discovered, c, hops, AdapterStopFailed);
      UntouchedKeepsInitialization(rest, RunHead(p, hops));
    case StopRefused(e) =>
      ResumingLeavesInitialization(rest, e, None, Completion(None, Stopped), hops, AdapterStopFailed);
      UntouchedKeepsInitialization(rest, RunHead(p, hops));
    case Report(_, _) => UntouchedKeepsInitialization(rest, RunHead(p, hops));
    case InitializationReaction(r, kept) =>
      assert p.jobs[0] in p.jobs;
      OnInitializedInitialization(rest, r, kept, hops);
    case Reply(_, _, _) => UntouchedKeepsInitialization(rest, RunHead(p, hops));
  }

  lemma InitializeInitialization(p: Process, causal: MessageId, launch: LaunchSpec, env: Env)
    requires InitializationOk(p) && ActiveOk(p)
    ensures InitializationOk(DispatchInitialize(p, causal, launch, env))
  {
    if launch.project == p.identity.project && launch.actor == p.identity.actor {
      SupervisorInitializeInitialization(p, Caller(causal, launch.actor), launch, env);
    }
  }

  lemma CommandInitialization(p: Process, m: ServerMessage, env: Env)
    requires InitializationOk(p) && ActiveOk(p)
    ensures InitializationOk(Dispatch(p, m, env))
  {
    if m.payload.InitializeActorHost? {
      InitializeInitialization(p.(commands := p.commands + [m]), m.id, m.payload.launch, env);
    } else {
      OtherCommandsLeaveInitialization(p, m, env);
      UntouchedKeepsInitialization(p, Dispatch(p, m, env));
    }
  }

  lemma StepInitialization(p: Process, ev: Event)
    requires InitializationOk(p) && StatesOk(p) && Enabled(p, ev)
    ensures InitializationOk(Step(p, ev))
  {
    match ev
    case Command(m, env) => CommandInitialization(p, m, env);
    case RunJob(hops) => RunHeadInitialization(p, hops);
    case AdapterInitialized(r, kept) => AdapterInitializedKeeps(p, r, kept);
    case SessionSettles(_, _) => UntouchedKeepsInitialization(p, Step(p, ev));
    case CompletionSettles(_, _) => UntouchedKeepsInitialization(p, Step(p, ev));
    case StopIsRefused(_) => UntouchedKeepsInitialization(p, Step(p, ev));
  }

  lemma AdapterInitializedKeeps(p: Process, r: nat, kept: bool)
    requires InitializationOk(p) && Enabled(p, AdapterInitialized(r, kept))
    ensures InitializationOk(Step(p, AdapterInitialized(r, kept)))
  {
    assert p.initialization == Some(r);
    forall j | j in p.jobs ensures !j.InitializationReaction? {}
    forall i | 0 <= i < |p.jobs| ensures !p.jobs[i].InitializationReaction? {
      assert p.jobs[i] in p.jobs;
    }
  }
}
