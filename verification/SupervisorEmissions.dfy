/** What the processor emits: facts of its own identity that name commands it dispatched. */
module SupervisorEmissions {
  import opened HostMessages
  import opened GatewayEndpoint
  import opened Supervisor
  import opened SupervisorStates
  import opened SupervisorReplies
  import opened SupervisorSessions
  import opened SupervisorCallers
  import opened SupervisorRuns
  import opened Options

  predicate PayloadBelongs(identity: Identity, payload: HostPayload) {
    IsFact(payload) && MatchesPostHello(identity, payload)
  }

  /** A reply or emission of `p` may say this about command `c`. */
  ghost predicate MayEmit(p: Process, c: MessageId, payload: HostPayload) {
    PayloadBelongs(p.identity, payload) && KnownId(p.commands, c)
  }

  ghost predicate OwnInvocations(p: Process) {
    forall x | x in p.execs :: x.spec.project == p.identity.project && x.spec.actor == p.identity.actor
  }

  ghost predicate OwnCallers(p: Process) {
    forall r: nat, i: nat | IsCaller(p, r, i) :: p.reservations[r].callers[i].actor == p.identity.actor
  }

  ghost predicate OwnReplies(p: Process) {
    && (forall j | j in p.jobs && j.Reply? :: MayEmit(p, j.causal, j.payload))
    && (forall m | m in p.emitted :: MayEmit(p, m.causal, m.payload))
  }

  ghost predicate Owns(p: Process) {
    OwnInvocations(p) && OwnCallers(p) && OwnReplies(p)
  }

  /** New replies and emissions are the only ones that need a look. */
  lemma RepliesStayOwn(p: Process, p': Process)
    requires OwnReplies(p) && p'.identity == p.identity && p.commands <= p'.commands
    requires p.jobs <= p'.jobs && p.emitted <= p'.emitted
    requires forall i | |p.jobs| <= i < |p'.jobs| && p'.jobs[i].Reply? :: MayEmit(p', p'.jobs[i].causal, p'.jobs[i].payload)
    requires forall i | |p.emitted| <= i < |p'.emitted| :: MayEmit(p', p'.emitted[i].causal, p'.emitted[i].payload)
    ensures OwnReplies(p')
  {
    MayEmitCarries(p, p');
    forall j | j in p'.jobs && j.Reply? ensures MayEmit(p', j.causal, j.payload) {
      var i :| 0 <= i < |p'.jobs| && p'.jobs[i] == j;
      if i < |p.jobs| { assert p.jobs[i] in p.jobs; }
    }
    forall m | m in p'.emitted ensures MayEmit(p', m.causal, m.payload) {
      var i :| 0 <= i < |p'.emitted| && p'.emitted[i] == m;
      if i < |p.emitted| { assert p.emitted[i] in p.emitted; }
    }
  }

  lemma MayEmitCarries(p: Process, p': Process)
    requires p'.identity == p.identity && p.commands <= p'.commands
    ensures forall c, payload :: MayEmit(p, c, payload) ==> MayEmit(p', c, payload)
  {
    forall c, payload | MayEmit(p, c, payload) ensures MayEmit(p', c, payload) {
      var m :| m in p.commands && m.id == c;
      assert m in p'.commands;
    }
  }

  lemma ExecIsKnown(p: Process, x: Exec)
    requires StartedBy(p, x)
    ensures KnownId(p.commands, x.causal)
  {}

  lemma FailExecOwns(p: Process, e: nat, code: FaultCode)
    requires Owns(p) && OriginsOk(p)
    ensures Owns(FailExec(p, e, code))
  {
    var p' := FailExec(p, e, code);
    if p' != p {
      assert p.execs[e] in p.execs;
      ExecIsKnown(p, p.execs[e]);
      RepliesStayOwn(p, p');
    }
  }

  lemma SilentOwns(p: Process, p': Process)
    requires Owns(p) && p'.identity == p.identity && p.commands <= p'.commands && p'.emitted == p.emitted && p.jobs <= p'.jobs
    requires forall i | |p.jobs| <= i < |p'.jobs| :: !p'.jobs[i].Reply?
    requires p'.reservations == p.reservations && |p'.execs| == |p.execs| && forall e | 0 <= e < |p.execs| :: p'.execs[e].spec == p.execs[e].spec
    ensures Owns(p')
  {
    RepliesStayOwn(p, p');
    forall x | x in p'.execs ensures x.spec.project == p'.identity.project && x.spec.actor == p'.identity.actor {
      var e :| 0 <= e < |p'.execs| && p'.execs[e] == x;
      assert p.execs[e] in p.execs;
    }
    forall r: nat, i: nat | IsCaller(p', r, i) ensures p'.reservations[r].callers[i].actor == p'.identity.actor { assert IsCaller(p, r, i); }
  }

  lemma ResolveSessionOwns(p: Process, e: nat, session: Option<SessionId>)
    requires Owns(p) && e < |p.execs|
    ensures Owns(ResolveSession(p, e, session))
  {
    SilentOwns(p, ResolveSession(p, e, session));
  }

  lemma OnSessionOwns(p: Process, e: nat, outcome: Outcome<Option<SessionId>>)
    requires Owns(p) && OriginsOk(p) && e < |p.execs|
    ensures Owns(OnSession(p, e, outcome))
  {
    match outcome
    case Refused =>
      FailExecOwns(p, e, SessionObservationFailed);
      ResolveSessionOwns(FailExec(p, e, SessionObservationFailed), e, None);
    case Fulfilled(session) =>
      ResolveSessionOwns(p, e, None);
      var noted := if session.Some? && p.active == Some(e) then p.(sessionId := session) else p;
      SilentOwns(p, noted);
      ResolveSessionOwns(noted, e, session);
  }

  lemma OnCompletionOwns(p: Process, e: nat, outcome: Outcome<Completion>)
    requires Owns(p) && OriginsOk(p) && e < |p.execs|
    ensures Owns(OnCompletion(p, e, outcome))
  {
    var marked := p.(execs := p.execs[e := p.execs[e].(completionSettled := true)]);
    SilentOwns(p, marked);
    assert Carries(p, marked);
    OriginsCarry(p, marked);
    if outcome.Refused? { FailExecOwns(marked, e, CompletionObservationFailed); } else { SilentOwns(p, OnCompletion(p, e, outcome)); }
  }

  lemma OnResumeOwns(p: Process, e: nat, discovered: Option<SessionId>, c: Completion, hops: Hops)
    requires Owns(p) && OriginsOk(p) && e < |p.execs|
    ensures Owns(OnResume(p, e, discovered, c, hops))
  {
    var p' := OnResume(p, e, discovered, c, hops);
    if !p.execs[e].settled {
      assert p.execs[e] in p.execs;
      ExecIsKnown(p, p.execs[e]);
      SilentOwns(p, p'.(jobs := p.jobs));
      RepliesStayOwn(p, p');
    }
  }

  lemma OnInitializedOwns(p: Process, r: nat, kept: bool, hops: Hops)
    requires Owns(p) && CallersOk(p) && r < |p.reservations|
    ensures Owns(OnInitialized(p, r, kept, hops))
  {
    var p' := OnInitialized(p, r, kept, hops);
    forall r': nat, i: nat | IsCaller(p', r', i) ensures p'.reservations[r'].callers[i].actor == p'.identity.actor { assert IsCaller(p, r', i); }
    forall i | |p.jobs| <= i < |p'.jobs| ensures MayEmit(p', p'.jobs[i].causal, p'.jobs[i].payload) {
      assert IsCaller(p, r, i - |p.jobs|) && CallerKnown(p, r, i - |p.jobs|);
    }
    RepliesStayOwn(p, p');
  }

  lemma EmitOwns(p: Process, causal: MessageId, payload: HostPayload)
    requires Owns(p) && MayEmit(p, causal, payload)
    ensures Owns(Emit(p, causal, payload))
  {
    RepliesStayOwn(p, Emit(p, causal, payload));
  }

  lemma RunHeadOwns(p: Process, hops: Hops)
    requires Owns(p) && Sound(p) && p.jobs != [] && JobInRange(p, p.jobs[0])
    ensures Owns(RunHead(p, hops))
  {
    var rest := p.(jobs := p.jobs[1..]);
    RestOwns(p, rest);
    match p.jobs[0]
    case SessionReaction(e, outcome) => OnSessionOwns(rest, e, outcome);
    case CompletionReaction(e, outcome) => OnCompletionOwns(rest, e, outcome);
    case CompletionResumes(e, discovered, c) => OnResumeOwns(rest, e, discovered, c, hops);
    case StopRefused(e) => FailExecOwns(rest, e, AdapterStopFailed);
    case Report(e, s) =>
      assert p.execs[e] in rest.execs;
      ExecIsKnown(rest, p.execs[e]);
      EmitOwns(rest, p.execs[e].causal, SessionReport(p.execs[e].spec.invocation, s));
    case InitializationReaction(r, kept) => OnInitializedOwns(rest, r, kept, hops);
    case Reply(causal, left, payload) =>
      assert p.jobs[0] in p.jobs;
      if left > 0 { RepliesStayOwn(rest, RunHead(p, hops)); } else { EmitOwns(rest, causal, payload); }
  }

  lemma RestOwns(p: Process, rest: Process)
    requires Owns(p) && OriginsOk(p) && CallersOk(p) && p.jobs != [] && rest == p.(jobs := p.jobs[1..])
    ensures Owns(rest) && OriginsOk(rest) && CallersOk(rest)
  {
    assert Carries(p, rest);
    OriginsCarry(p, rest);
    RestCallers(p, rest);
    MayEmitCarries(p, rest);
    forall j | j in rest.jobs ensures j in p.jobs {}
    forall r: nat, i: nat | IsCaller(rest, r, i) ensures rest.reservations[r].callers[i].actor == rest.identity.actor { assert IsCaller(p, r, i); }
  }

  lemma AnswerOwns(p: Process, caller: Caller, result: InitializeResult, hops: Hops)
    requires Owns(p) && caller.actor == p.identity.actor && KnownId(p.commands, caller.causal)
    ensures Owns(Answer(p, caller, result, hops))
  {
    RepliesStayOwn(p, Answer(p, caller, result, hops));
    forall r: nat, i: nat | IsCaller(Answer(p, caller, result, hops), r, i)
      ensures p.reservations[r].callers[i].actor == p.identity.actor
    {
      assert IsCaller(p, r, i);
    }
  }

  lemma JoinOwns(p: Process, r: nat, caller: Caller)
    requires Owns(p) && caller.actor == p.identity.actor && r < |p.reservations|
    ensures Owns(Join(p, r, caller))
  {
    var p' := Join(p, r, caller);
    RepliesStayOwn(p, p');
    forall r': nat, i: nat | IsCaller(p', r', i) ensures p'.reservations[r'].callers[i].actor == p'.identity.actor {
      if IsCaller(p, r', i) { assert p'.reservations[r'].callers[i] == p.reservations[r'].callers[i]; }
    }
  }

  lemma ReserveOwns(p: Process, caller: Caller, launch: LaunchSpec, env: Env)
    requires Owns(p) && caller.actor == p.identity.actor && KnownId(p.commands, caller.causal)
    ensures Owns(Reserve(p, caller, launch, env))
  {
    var p' := Reserve(p, caller, launch, env);
    RepliesStayOwn(p, p');
    forall r: nat, i: nat | IsCaller(p', r, i) ensures p'.reservations[r].callers[i].actor == p'.identity.actor {
      if IsCaller(p, r, i) { assert p'.reservations[r].callers[i] == p.reservations[r].callers[i]; }
    }
  }

  lemma SupervisorInitializeOwns(p: Process, caller: Caller, launch: LaunchSpec, env: Env)
    requires Owns(p) && caller.actor == p.identity.actor && KnownId(p.commands, caller.causal)
    ensures Owns(SupervisorInitialize(p, caller, launch, env))
  {
    forall result ensures Owns(Answer(p, caller, result, env.hops)) { AnswerOwns(p, caller, result, env.hops); }
    if p.initialization.Some? && p.initialization.value < |p.reservations| {
      JoinOwns(p, p.initialization.value, caller);
    } else {
      ReserveOwns(p, caller, launch, env);
    }
  }

  lemma DispatchStartOwns(p: Process, causal: MessageId, spec: InvocationSpec, env: Env)
    requires Owns(p) && KnownId(p.commands, causal)
    ensures Owns(DispatchStart(p, causal, spec, env))
  {
    var p' := DispatchStart(p, causal, spec, env);
    RepliesStayOwn(p, p');
    forall r: nat, i: nat | IsCaller(p', r, i) ensures p'.reservations[r].callers[i].actor == p'.identity.actor { assert IsCaller(p, r, i); }
  }

  lemma DispatchStopOwns(p: Process, causal: MessageId, target: InvocationId, env: Env)
    requires Owns(p) && OriginsOk(p) && KnownId(p.commands, causal)
    ensures Owns(DispatchStop(p, causal, target, env))
  {
    match StopRefusal(p, target)
    case Some(code) => EmitOwns(p, causal, HostFault(Some(target), code));
    case None =>
      var e := p.active.value;
      var x := p.execs[e];
      var asked := p.(state := Stopping, execs := p.execs[e := x.(stopCalls := x.stopCalls + 1)]);
      SilentOwns(p, asked);
      assert Carries(p, asked);
      OriginsCarry(p, asked);
      FailExecOwns(asked, e, AdapterStopFailed);
  }

  lemma SeenOwns(p: Process, m: ServerMessage)
    requires Owns(p) && SessionsOk(p)
    ensures var seen := p.(commands := p.commands + [m]); Owns(seen) && OriginsOk(seen) && KnownId(seen.commands, m.id)
  {
    var seen := p.(commands := p.commands + [m]);
    SilentOwns(p, seen);
    SeenSessions(p, m);
    assert m in seen.commands;
  }

  lemma DispatchInitializeOwns(p: Process, causal: MessageId, launch: LaunchSpec, env: Env)
    requires Owns(p) && KnownId(p.commands, causal)
    ensures Owns(DispatchInitialize(p, causal, launch, env))
  {
    if launch.project != p.identity.project || launch.actor != p.identity.actor {
      EmitOwns(p, causal, HostFault(None, IdentityMismatch));
    } else {
      SupervisorInitializeOwns(p, Caller(causal, launch.actor), launch, env);
    }
  }

  lemma DispatchOwns(p: Process, m: ServerMessage, env: Env)
    requires Owns(p) && SessionsOk(p)
    ensures Owns(Dispatch(p, m, env))
  {
    var seen := p.(commands := p.commands + [m]);
    SeenOwns(p, m);
    match m.payload
    case InitializeActorHost(launch) => DispatchInitializeOwns(seen, m.id, launch, env);
    case StartInvocation(spec) => DispatchStartOwns(seen, m.id, spec, env);
    case StopInvocation(target) => DispatchStopOwns(seen, m.id, target, env);
    case _ =>
  }

  lemma AdapterInitializedOwns(p: Process, r: nat, kept: bool)
    requires Owns(p) && Enabled(p, AdapterInitialized(r, kept))
    ensures Owns(Step(p, AdapterInitialized(r, kept)))
  {
    var p' := Step(p, AdapterInitialized(r, kept));
    RepliesStayOwn(p, p');
    forall r': nat, i: nat | IsCaller(p', r', i) ensures p'.reservations[r'].callers[i].actor == p'.identity.actor { assert IsCaller(p, r', i); }
  }

  lemma StepOwns(p: Process, ev: Event)
    requires Owns(p) && Sound(p) && Enabled(p, ev)
    ensures Owns(Step(p, ev))
  {
    match ev
    case Command(m, env) => DispatchOwns(p, m, env);
    case RunJob(hops) => RunHeadOwns(p, hops);
    case AdapterInitialized(r, kept) => AdapterInitializedOwns(p, r, kept);
    case SessionSettles(_, _) => SilentOwns(p, Step(p, ev));
    case CompletionSettles(_, _) => SilentOwns(p, Step(p, ev));
    case StopIsRefused(_) => SilentOwns(p, Step(p, ev));
  }

  // ---------------------------------------------------------------- at most one emission a step

  ghost predicate EmitsAtMostOnce(p: Process, p': Process) {
    p'.identity == p.identity && p.emitted <= p'.emitted && |p'.emitted| <= |p.emitted| + 1
  }

  lemma RunHeadEmits(p: Process, hops: Hops)
    requires p.jobs != [] && JobInRange(p, p.jobs[0])
    ensures EmitsAtMostOnce(p, RunHead(p, hops))
  {}

  lemma DispatchEmits(p: Process, m: ServerMessage, env: Env)
    ensures EmitsAtMostOnce(p, Dispatch(p, m, env))
  {}

  lemma StepEmits(p: Process, ev: Event)
    requires Enabled(p, ev)
    ensures EmitsAtMostOnce(p, Step(p, ev))
  {
    match ev
    case Command(m, env) => DispatchEmits(p, m, env);
    case RunJob(hops) => RunHeadEmits(p, hops);
    case _ =>
  }
}
