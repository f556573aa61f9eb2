/** The actor host's objects: its server connection, its command processor and its supervisor. Each
    method updates its object in place and is proved to be the step of the models. */
module ActorHostObjects {
  import opened HostMessages
  import opened Options
  import E = HostEndpoint
  import opened HostEndpoint
  import S = Supervisor
  import opened Supervisor
  import opened SupervisorEmissions
  import HostSystem

  class ServerConnection {
    const identity: Identity
    const connectionGeneration: int
    var stateValue: HostState
    var nextOutboundSequence: int
    var nextInboundSequence: int
    var processor: ActorHostCommandProcessor?
    ghost var wrote: seq<HostMessage>

    /** The processor sends through this connection, for its identity. */
    ghost predicate Wired()
      reads this
    {
      && processor != null && processor.outbound == this
      && processor.identity == identity && processor.supervisor.identity == identity
    }

    ghost function View(): Host
      reads this`stateValue, this`nextInboundSequence, this`nextOutboundSequence, this`wrote
    {
      Host(identity, connectionGeneration, stateValue, nextInboundSequence, nextOutboundSequence, wrote)
    }

    constructor (identity: Identity, generation: int, supervisor: BackendSupervisor)
      requires supervisor.identity == identity
      ensures View() == Created(identity, generation) && Wired() && processor.supervisor == supervisor
    {
      this.identity, connectionGeneration := identity, generation;
      stateValue, nextOutboundSequence, nextInboundSequence, wrote := NotStarted, 0, 0, [];
      new;
      processor := new ActorHostCommandProcessor(supervisor, this);
    }

    method FailConnection()
      modifies this`stateValue
      ensures View() == FailHost(old(View()))
    {
      if stateValue == HostFailed { return; }
      stateValue := HostFailed;
    }

    method StartConnection(supply: Supply) returns (r: HostSendResult)
      modifies `stateValue, `nextOutboundSequence, `wrote
      ensures (View(), r) == E.Start(old(View()), supply)
    {
      if stateValue == HostLive { return HostAlreadyStarted; }
      if stateValue == HostFailed { return HostSendFailed; }
      r := Write(HostHello(identity), None, supply);
      if r == HostSent { stateValue := HostLive; }
    }

    /** `receive`: check the envelope, then hand an accepted message to the processor. */
    method Receive(input: Option<ServerMessage>, ackSupply: Supply, env: Env, supply: Supply) returns (r: HostInbound)
      requires Wired()
      modifies `stateValue, `nextInboundSequence, `nextOutboundSequence, `wrote, processor.supervisor
      ensures Wired() && processor == old(processor) && r == ReceiveHost(old(View()), input).1
      ensures (View(), processor.supervisor.View())
              == HostSystem.TakeIn(old(View()), old(processor.supervisor.View()), input, ackSupply, env, supply)
    {
      r := Accept(input);
      if r.HostAccepted? { processor.Process(r.message, ackSupply, env, supply); }
    }

    method Accept(input: Option<ServerMessage>) returns (r: HostInbound)
      modifies `nextInboundSequence
      ensures (View(), r) == ReceiveHost(old(View()), input)
    {
      if stateValue == NotStarted { return InboundNotStarted; }
      if stateValue == HostFailed { return InboundFailed; }
      if input.None? { return HostDecodeFailed; }
      var message := input.value;
      if message.generation != connectionGeneration { return HostGenerationMismatch; }
      if message.sequence < nextInboundSequence { return HostSequenceStale; }
      if message.sequence > nextInboundSequence { return HostSequenceGap; }
      nextInboundSequence := nextInboundSequence + 1;
      return HostAccepted(message);
    }

    method Send(payload: HostPayload, causal: Option<MessageId>, supply: Supply) returns (r: HostSendResult)
      modifies `stateValue, `nextOutboundSequence, `wrote
      ensures (View(), r) == SendHost(old(View()), payload, causal, supply)
    {
      if stateValue == NotStarted { return HostNotStarted; }
      if stateValue == HostFailed { return HostSendFailed; }
      r := Write(payload, causal, supply);
    }

    method Write(payload: HostPayload, causal: Option<MessageId>, supply: Supply) returns (r: HostSendResult)
      modifies `stateValue, `nextOutboundSequence, `wrote
      ensures (View(), r) == WriteHost(old(View()), payload, causal, supply)
    {
      var senderSequence := nextOutboundSequence;
      nextOutboundSequence := nextOutboundSequence + 1;
      if supply.NoEnvelope? || senderSequence > MAX_SAFE_INTEGER {
        FailConnection();
        return HostTransportFailed;
      }
      wrote := wrote + [Message(supply.id, causal, senderSequence, connectionGeneration, payload)];
      return HostSent;
    }
  }

  datatype StartResult = StartRejected(code: FaultCode) | LaunchDidFail(result: InvocationResult) | Started(exec: nat)

  /** The supervisor and the promise reactions it has queued. Its one processor's history is kept
      beside it. */
  class BackendSupervisor {
    const identity: Identity
    const adapter: int
    var state: State
    var launchSpec: Option<LaunchSpec>
    var initialization: Option<nat>
    var active: Option<nat>
    var sessionId: Option<SessionId>
    var execs: seq<Exec>
    var reservations: seq<Reservation>
    var jobs: seq<Job>
    ghost var commands: seq<ServerMessage>
    ghost var emitted: seq<Emission>

    ghost function View(): Process
      reads this
    {
      Process(identity, adapter, state, launchSpec, initialization, active, sessionId, execs, reservations, jobs, commands, emitted)
    }

    constructor (identity: Identity, adapter: int)
      ensures View() == Born(identity, adapter)
    {
      this.identity, this.adapter := identity, adapter;
      state, launchSpec, initialization, active, sessionId := Uninitialized, None, None, None, None;
      execs, reservations, jobs, commands, emitted := [], [], [], [], [];
    }

    /** An adapter's session promise settles and queues its reaction. */
    method SettleSession(e: nat, outcome: Outcome<Option<SessionId>>)
      requires Enabled(View(), SessionSettles(e, outcome))
      modifies `execs, `jobs
      ensures View() == S.Step(old(View()), SessionSettles(e, outcome))
    {
      execs := execs[e := execs[e].(adapterSession := SettlementOf(outcome))];
      jobs := jobs + [SessionReaction(e, outcome)];
    }

    method SettleCompletion(e: nat, outcome: Outcome<Completion>)
      requires Enabled(View(), CompletionSettles(e, outcome))
      modifies `execs, `jobs
      ensures View() == S.Step(old(View()), CompletionSettles(e, outcome))
    {
      execs := execs[e := execs[e].(adapterCompletion := SettlementOf(outcome))];
      jobs := jobs + [CompletionReaction(e, outcome)];
    }

    method RefuseStop(e: nat)
      requires Enabled(View(), StopIsRefused(e))
      modifies `jobs
      ensures View() == S.Step(old(View()), StopIsRefused(e))
    {
      jobs := jobs + [StopRefused(e)];
    }

    method SettleInitialization(r: nat, kept: bool)
      requires Enabled(View(), AdapterInitialized(r, kept))
      modifies `reservations, `jobs
      ensures View() == S.Step(old(View()), AdapterInitialized(r, kept))
    {
      reservations := reservations[r := reservations[r].(adapter := if kept then Kept else Broken)];
      jobs := jobs + [InitializationReaction(r, kept)];
    }

    method Fail(e: nat, code: FaultCode)
      modifies this
      ensures View() == FailExec(old(View()), e, code)
    {
      if active != Some(e) || e >= |execs| || execs[e].settled { return; }
      var x := execs[e];
      execs := execs[e := x.(settled := true, completionSettled := true)];
      active := None;
      state := Faulted;
      jobs := jobs + [Reply(x.causal, 0, HostFault(Some(x.spec.invocation), code))];
    }

    method ResolveSession(e: nat, session: Option<SessionId>)
      requires e < |execs|
      modifies this
      ensures View() == S.ResolveSession(old(View()), e, session)
    {
      var x := execs[e];
      execs := execs[e := x.(session := Some(session), awaiting := None)];
      var reactions := [];
      if session.Some? { reactions := [Report(e, session.value)]; }
      if x.awaiting.Some? { reactions := reactions + [CompletionResumes(e, session, x.awaiting.value)]; }
      jobs := jobs + reactions;
    }

    method OnSession(e: nat, outcome: Outcome<Option<SessionId>>)
      requires e < |execs|
      modifies this
      ensures View() == S.OnSession(old(View()), e, outcome)
    {
      match outcome
      case Refused =>
        Fail(e, SessionObservationFailed);
        ResolveSession(e, None);
      case Fulfilled(session) =>
        if execs[e].settled {
          ResolveSession(e, None);
        } else {
          if session.Some? && active == Some(e) { sessionId := session; }
          ResolveSession(e, session);
        }
    }

    method OnCompletion(e: nat, outcome: Outcome<Completion>)
      requires e < |execs|
      modifies this
      ensures View() == S.OnCompletion(old(View()), e, outcome)
    {
      execs := execs[e := execs[e].(completionSettled := true)];
      match outcome
      case Refused => Fail(e, CompletionObservationFailed);
      case Fulfilled(completion) =>
        if execs[e].session.Some? {
          jobs := jobs + [CompletionResumes(e, execs[e].session.value, completion)];
        } else {
          execs := execs[e := execs[e].(awaiting := Some(completion))];
        }
    }

    method Finish(e: nat)
      requires e < |execs| && !execs[e].settled
      modifies this`execs, this`active, this`state
      ensures View() == if old(active) != Some(e) then old(View())
                        else old(View()).(execs := old(execs)[e := old(execs)[e].(settled := true)], active := None, state := Ready)
    {
      if active != Some(e) { return; }
      execs := execs[e := execs[e].(settled := true)];
      active := None;
      state := Ready;
    }

    method OnResume(e: nat, discovered: Option<SessionId>, completion: Completion, hops: Hops)
      requires e < |execs|
      modifies this
      ensures View() == S.OnResume(old(View()), e, discovered, completion, hops)
    {
      var x := execs[e];
      if x.settled { return; }
      var result := ResultOf(x, discovered, completion);
      if result.session.Some? { sessionId := result.session; }
      Finish(e);
      jobs := jobs + [Reply(x.causal, HopsAt(hops, 0), ResultReport(result))];
    }

    method Resolve(r: nat, result: InitializeResult, hops: Hops)
      requires r < |reservations|
      modifies this`reservations, this`jobs
      ensures View() == S.Resolve(old(View()), r, result, hops)
    {
      var reservation := reservations[r];
      reservations := reservations[r := reservation.(result := Some(result))];
      jobs := jobs + RepliesTo(reservation.callers, result, hops);
    }

    /** `runInitialization`, once the adapter's promise has settled. */
    method OnInitialized(r: nat, kept: bool, hops: Hops)
      requires r < |reservations|
      modifies this
      ensures View() == S.OnInitialized(old(View()), r, kept, hops)
    {
      if !kept {
        if initialization == Some(r) { initialization := None; }
        Resolve(r, InitializeRejected(InitializationFailed), hops);
        return;
      }
      if initialization != Some(r) {
        Resolve(r, ReservationLost, hops);
        return;
      }
      initialization := None;
      launchSpec := Some(reservations[r].launch);
      sessionId := None;
      state := Ready;
      Resolve(r, Initialized, hops);
    }

    method AnswerCaller(caller: Caller, result: InitializeResult, hops: Hops)
      modifies this`jobs
      ensures View() == Answer(old(View()), caller, result, hops)
    {
      jobs := jobs + [Reply(caller.causal, HopsAt(hops, 0), InitializePayload(caller.actor, result))];
    }

    method Initialize(caller: Caller, launch: LaunchSpec, env: Env)
      modifies this
      ensures View() == SupervisorInitialize(old(View()), caller, launch, env)
    {
      if adapter != launch.adapter {
        AnswerCaller(caller, InitializeRejected(AdapterMismatch), env.hops);
        return;
      }
      if state == Faulted {
        AnswerCaller(caller, InitializeRejected(Quarantined), env.hops);
        return;
      }
      if launchSpec.Some? {
        var same := SameConfiguration(launchSpec.value, launch);
        AnswerCaller(caller, if same then AlreadyReady else InitializeRejected(IdentityMismatch), env.hops);
        return;
      }
      if initialization.Some? && initialization.value < |reservations| {
        var r := initialization.value;
        var held := reservations[r];
        if !SameConfiguration(held.launch, launch) {
          AnswerCaller(caller, InitializeRejected(IdentityMismatch), env.hops);
          return;
        }
        reservations := reservations[r := held.(callers := held.callers + [caller])];
        return;
      }
      MakeReservation(caller, launch, env);
    }

    method MakeReservation(caller: Caller, launch: LaunchSpec, env: Env)
      modifies this
      ensures View() == Reserve(old(View()), caller, launch, env)
    {
      var r := |reservations|;
      reservations := reservations + [Reservation(launch, [caller], if env.throws then Broken else Open, None)];
      initialization := Some(r);
      if env.throws { OnInitialized(r, false, env.hops); }
    }

    method StartInvocation(causal: MessageId, spec: InvocationSpec, env: Env) returns (r: StartResult)
      modifies this`execs, this`active, this`state
      ensures r.StartRejected? ==> StartRefusal(old(View()), spec) == Some(r.code)
      ensures !r.StartRejected? ==> StartRefusal(old(View()), spec) == None && (r.LaunchDidFail? <==> env.launchError.Some?)
      ensures r.LaunchDidFail? ==>
                r.result == InvocationResult(spec.project, spec.run, spec.actor, spec.invocation, None, LaunchFailed(env.launchError.value))
      ensures !r.Started? ==> View() == old(View())
      ensures r.Started? ==> r.exec == |old(execs)| && View() == old(View()).(
                execs := old(execs) + [Exec(causal, spec, false, false, None, None, Open, Open, 0)], active := Some(r.exec), state := Running)
    {
      if state == Uninitialized || launchSpec.None? { return StartRejected(NotInitialized); }
      if state == Faulted { return StartRejected(Quarantined); }
      if state == Running || state == Stopping { return StartRejected(Busy); }
      if spec.project != launchSpec.value.project || spec.actor != launchSpec.value.actor { return StartRejected(IdentityMismatch); }
      if env.launchError.Some? {
        return LaunchDidFail(InvocationResult(spec.project, spec.run, spec.actor, spec.invocation, None, LaunchFailed(env.launchError.value)));
      }
      r := Started(|execs|);
      active := Some(|execs|);
      execs := execs + [Exec(causal, spec, false, false, None, None, Open, Open, 0)];
      state := Running;
    }

    /** None means accepted. */
    method StopInvocation(target: InvocationId, env: Env) returns (refusal: Option<FaultCode>)
      modifies this
      ensures refusal == StopRefusal(old(View()), target)
      ensures refusal.Some? ==> View() == old(View())
      ensures refusal.None? ==> forall causal :: View() == DispatchStop(old(View()), causal, target, env)
    {
      if state == Uninitialized || launchSpec.None? { return Some(NotInitialized); }
      if active.None? || active.value >= |execs| { return Some(NoActiveInvocation); }
      var e := active.value;
      if execs[e].spec.invocation != target { return Some(InvocationMismatch); }
      if execs[e].completionSettled || state == Stopping { return None; }
      state := Stopping;
      execs := execs[e := execs[e].(stopCalls := execs[e].stopCalls + 1)];
      if env.throws { Fail(e, AdapterStopFailed); }
      return None;
    }
  }

  class ActorHostCommandProcessor {
    const supervisor: BackendSupervisor
    const outbound: ServerConnection
    const identity: Identity

    constructor (supervisor: BackendSupervisor, outbound: ServerConnection)
      requires supervisor.identity == outbound.identity
      ensures this.supervisor == supervisor && this.outbound == outbound && identity == outbound.identity
    {
      this.supervisor, this.outbound := supervisor, outbound;
      identity := outbound.identity;
    }

    method EmitPayload(payload: HostPayload, causal: MessageId, supply: Supply)
      modifies supervisor`emitted, outbound`stateValue, outbound`nextOutboundSequence, outbound`wrote
      ensures supervisor.View() == Emit(old(supervisor.View()), causal, payload)
      ensures outbound.View() == SendHost(old(outbound.View()), payload, Some(causal), supply).0
    {
      supervisor.emitted := supervisor.emitted + [Emission(causal, payload)];
      var sent := outbound.Send(payload, Some(causal), supply);
    }

    /** `process`: acknowledge, then dispatch. */
    method Process(message: ServerMessage, ackSupply: Supply, env: Env, supply: Supply)
      requires supervisor.identity == identity
      modifies supervisor, outbound`stateValue, outbound`nextOutboundSequence, outbound`wrote
      ensures var (acked, r) := SendHost(old(outbound.View()), HostAck(message.id), Some(message.id), ackSupply);
              if message.payload.ServerAck? then supervisor.View() == old(supervisor.View()) && outbound.View() == old(outbound.View())
              else if r != HostSent then supervisor.View() == old(supervisor.View()) && outbound.View() == acked
              else supervisor.View() == Dispatch(old(supervisor.View()), message, env)
                   && outbound.View() == HostSystem.Said(acked, old(supervisor.emitted), supervisor.emitted, supply)
    {
      if message.payload.ServerAck? { return; }
      var acknowledgement := outbound.Send(HostAck(message.id), Some(message.id), ackSupply);
      if acknowledgement != HostSent { return; }
      supervisor.commands := supervisor.commands + [message];
      match message.payload
      case InitializeActorHost(launch) => InitializeHost(message.id, launch, env, supply);
      case StartInvocation(spec) => StartOne(message.id, spec, env, supply);
      case StopInvocation(target) => StopOne(message.id, target, env, supply);
      case _ =>
    }

    method InitializeHost(causal: MessageId, launch: LaunchSpec, env: Env, supply: Supply)
      requires supervisor.identity == identity
      modifies supervisor, outbound`stateValue, outbound`nextOutboundSequence, outbound`wrote
      ensures supervisor.View() == DispatchInitialize(old(supervisor.View()), causal, launch, env)
      ensures outbound.View() == HostSystem.Said(old(outbound.View()), old(supervisor.emitted), supervisor.emitted, supply)
    {
      if launch.project != identity.project || launch.actor != identity.actor {
        EmitPayload(HostFault(None, IdentityMismatch), causal, supply);
        return;
      }
      supervisor.Initialize(Caller(causal, launch.actor), launch, env);
      assert supervisor.emitted == old(supervisor.emitted);
    }

    method StartOne(causal: MessageId, spec: InvocationSpec, env: Env, supply: Supply)
      requires supervisor.identity == identity
      modifies supervisor, outbound`stateValue, outbound`nextOutboundSequence, outbound`wrote
      ensures supervisor.View() == DispatchStart(old(supervisor.View()), causal, spec, env)
      ensures outbound.View() == HostSystem.Said(old(outbound.View()), old(supervisor.emitted), supervisor.emitted, supply)
    {
      if spec.project != identity.project || spec.actor != identity.actor {
        EmitPayload(HostFault(Some(spec.invocation), IdentityMismatch), causal, supply);
        return;
      }
      var result := supervisor.StartInvocation(causal, spec, env);
      match result
      case LaunchDidFail(failed) => EmitPayload(ResultReport(failed), causal, supply);
      case StartRejected(code) => EmitPayload(HostFault(Some(spec.invocation), code), causal, supply);
      case Started(_) =>        // session, result and failure reactions are queued as their promises settle
    }

    method StopOne(causal: MessageId, target: InvocationId, env: Env, supply: Supply)
      modifies supervisor, outbound`stateValue, outbound`nextOutboundSequence, outbound`wrote
      ensures supervisor.View() == DispatchStop(old(supervisor.View()), causal, target, env)
      ensures outbound.View() == HostSystem.Said(old(outbound.View()), old(supervisor.emitted), supervisor.emitted, supply)
    {
      var refusal := supervisor.StopInvocation(target, env);
      if refusal.Some? {
        EmitPayload(HostFault(Some(target), refusal.value), causal, supply);
      } else {
        assert supervisor.View() == DispatchStop(old(supervisor.View()), causal, target, env);
        assert supervisor.emitted == old(supervisor.emitted);
      }
    }

    /** Runs the first queued reaction. */
    method RunJob(hops: Hops, supply: Supply)
      requires supervisor.jobs != [] && JobInRange(supervisor.View(), supervisor.jobs[0])
      modifies supervisor, outbound`stateValue, outbound`nextOutboundSequence, outbound`wrote
      ensures (outbound.View(), supervisor.View())
              == HostSystem.ActIn(old(outbound.View()), old(supervisor.View()), S.RunJob(hops), supply)
    {
      var job := supervisor.jobs[0];
      supervisor.jobs := supervisor.jobs[1..];
      match job
      case SessionReaction(e, outcome) => supervisor.OnSession(e, outcome);
      case CompletionReaction(e, outcome) => supervisor.OnCompletion(e, outcome);
      case CompletionResumes(e, discovered, completion) => supervisor.OnResume(e, discovered, completion, hops);
      case StopRefused(e) => supervisor.Fail(e, AdapterStopFailed);
      case Report(e, session) =>
        EmitPayload(SessionReport(supervisor.execs[e].spec.invocation, session), supervisor.execs[e].causal, supply);
      case InitializationReaction(r, kept) => supervisor.OnInitialized(r, kept, hops);
      case Reply(causal, left, payload) =>
        if left > 0 {
          supervisor.jobs := supervisor.jobs + [Reply(causal, left - 1, payload)];
        } else {
          EmitPayload(payload, causal, supply);
        }
    }
  }
}
