/** Callers that joined one initialization are all answered alike. */
module SupervisorCallers {
  import opened HostMessages
  import opened Supervisor
  import opened SupervisorStates
  import opened SupervisorReplies
  import opened SupervisorSessions
  import opened Options

  // ---------------------------------------------------------------- who asked for what

  /** The callers of a reservation are initialize commands, each its own. */
  ghost predicate CallerKnown(p: Process, r: nat, i: nat)
    requires r < |p.reservations| && i < |p.reservations[r].callers|
  {
    var caller := p.reservations[r].callers[i];
    exists m | m in p.commands :: m.id == caller.causal && m.payload.InitializeActorHost? && m.payload.launch.actor == caller.actor
  }

  ghost predicate IsCaller(p: Process, r: nat, i: nat) {
    r < |p.reservations| && i < |p.reservations[r].callers|
  }

  /** Whatever replies to a caller of a resolved reservation says what that reservation resolved to. */
  ghost predicate SaysResult(p: Process, causal: MessageId, payload: HostPayload) {
    forall r: nat, i: nat | IsCaller(p, r, i) && p.reservations[r].callers[i].causal == causal ::
      p.reservations[r].result.Some? && payload == InitializePayload(p.reservations[r].callers[i].actor, p.reservations[r].result.value)
  }

  ghost predicate CallersOk(p: Process) {
    && (forall r: nat, i: nat | IsCaller(p, r, i) :: CallerKnown(p, r, i))
    && (forall r: nat, i: nat, r': nat, i': nat | IsCaller(p, r, i) && IsCaller(p, r', i')
          && p.reservations[r].callers[i].causal == p.reservations[r'].callers[i'].causal :: r == r' && i == i')
    && (forall j | j in p.jobs && j.Reply? :: SaysResult(p, j.causal, j.payload))
    && (forall m | m in p.emitted && !m.payload.SessionReport? :: SaysResult(p, m.causal, m.payload))
  }

  ghost predicate IdsDistinct(commands: seq<ServerMessage>) {
    forall i, k | 0 <= i < k < |commands| :: commands[i].id != commands[k].id
  }

  ghost predicate NoCaller(p: Process, c: MessageId) {
    forall r: nat, i: nat | IsCaller(p, r, i) :: p.reservations[r].callers[i].causal != c
  }

  lemma NoCallerSaysAnything(p: Process, c: MessageId, payload: HostPayload)
    requires NoCaller(p, c)
    ensures SaysResult(p, c, payload)
  {}

  /** A start command is nobody's initialization. */
  lemma ExecIsNoCaller(p: Process, x: Exec)
    requires CallersOk(p) && StartedBy(p, x) && IdsDistinct(p.commands)
    ensures NoCaller(p, x.causal)
  {
    forall r: nat, i: nat | IsCaller(p, r, i) ensures p.reservations[r].callers[i].causal != x.causal {
      assert CallerKnown(p, r, i);
    }
  }

  lemma NewIdIsNoCaller(p: Process, c: MessageId)
    requires CallersOk(p) && !KnownId(p.commands, c)
    ensures NoCaller(p, c)
  {
    forall r: nat, i: nat | IsCaller(p, r, i) ensures p.reservations[r].callers[i].causal != c {
      assert CallerKnown(p, r, i);
    }
  }

  /** With the same reservations, only the new replies need a look. */
  lemma CallersCarry(p: Process, p': Process)
    requires CallersOk(p) && p'.reservations == p.reservations && p.commands <= p'.commands
    requires p.jobs <= p'.jobs && p.emitted <= p'.emitted
    requires forall i | |p.jobs| <= i < |p'.jobs| && p'.jobs[i].Reply? :: SaysResult(p, p'.jobs[i].causal, p'.jobs[i].payload)
    requires forall i | |p.emitted| <= i < |p'.emitted| && !p'.emitted[i].payload.SessionReport? ::
               SaysResult(p, p'.emitted[i].causal, p'.emitted[i].payload)
    ensures CallersOk(p')
  {
    forall r: nat, i: nat | IsCaller(p', r, i) ensures CallerKnown(p', r, i) {
      assert IsCaller(p, r, i) && CallerKnown(p, r, i);
      var m :| m in p.commands && m.id == p.reservations[r].callers[i].causal && m.payload.InitializeActorHost?
               && m.payload.launch.actor == p.reservations[r].callers[i].actor;
      assert m in p'.commands;
    }
    SaysCarries(p, p');
    forall j | j in p'.jobs && j.Reply? ensures SaysResult(p', j.causal, j.payload) {
      var i :| 0 <= i < |p'.jobs| && p'.jobs[i] == j;
      if i < |p.jobs| { assert p.jobs[i] in p.jobs; }
    }
    forall m | m in p'.emitted && !m.payload.SessionReport? ensures SaysResult(p', m.causal, m.payload) {
      var i :| 0 <= i < |p'.emitted| && p'.emitted[i] == m;
      if i < |p.emitted| { assert p.emitted[i] in p.emitted; }
    }
  }

  lemma SaysCarries(p: Process, p': Process)
    requires p'.reservations == p.reservations
    ensures forall c, payload :: SaysResult(p, c, payload) ==> SaysResult(p', c, payload)
  {
    forall c, payload | SaysResult(p, c, payload) ensures SaysResult(p', c, payload) {
      forall r: nat, i: nat | IsCaller(p', r, i) && p'.reservations[r].callers[i].causal == c
        ensures p'.reservations[r].result.Some? && payload == InitializePayload(p'.reservations[r].callers[i].actor, p'.reservations[r].result.value)
      { assert IsCaller(p, r, i); }
    }
  }

  /** What a step that concerns one invocation may change: it replies to its own start at most, and
      it makes no stop. */
  ghost predicate ConcernsOne(p: Process, p': Process, e: nat)
    requires e < |p.execs|
  {
    && p'.reservations == p.reservations && p'.commands == p.commands && p'.emitted == p.emitted && p.jobs <= p'.jobs
    && (forall i | |p.jobs| <= i < |p'.jobs| && p'.jobs[i].Reply? :: p'.jobs[i].causal == p.execs[e].causal)
    && SameStops(p, p')
  }

  ghost predicate SameStops(p: Process, p': Process) {
    && |p'.execs| == |p.execs|
    && (forall i | 0 <= i < |p.execs| ::
          p'.execs[i].stopCalls == p.execs[i].stopCalls && p'.execs[i].causal == p.execs[i].causal && p'.execs[i].spec == p.execs[i].spec)
  }

  lemma FailExecConcernsOne(p: Process, e: nat, code: FaultCode)
    requires e < |p.execs|
    ensures ConcernsOne(p, FailExec(p, e, code), e)
  {}

  lemma OnSessionConcernsOne(p: Process, e: nat, outcome: Outcome<Option<SessionId>>)
    requires e < |p.execs|
    ensures ConcernsOne(p, OnSession(p, e, outcome), e)
  {
    FailExecConcernsOne(p, e, SessionObservationFailed);
  }

  lemma OnCompletionConcernsOne(p: Process, e: nat, outcome: Outcome<Completion>)
    requires e < |p.execs|
    ensures ConcernsOne(p, OnCompletion(p, e, outcome), e)
  {}

  lemma OnResumeConcernsOne(p: Process, e: nat, discovered: Option<SessionId>, c: Completion, hops: Hops)
    requires e < |p.execs|
    ensures ConcernsOne(p, OnResume(p, e, discovered, c, hops), e)
  {}

  lemma ConcernsOneCallers(p: Process, p': Process, e: nat)
    requires CallersOk(p) && OriginsOk(p) && IdsDistinct(p.commands) && e < |p.execs| && ConcernsOne(p, p', e)
    ensures CallersOk(p')
  {
    assert p.execs[e] in p.execs;
    ExecIsNoCaller(p, p.execs[e]);
    forall i | |p.jobs| <= i < |p'.jobs| && p'.jobs[i].Reply? ensures SaysResult(p, p'.jobs[i].causal, p'.jobs[i].payload) {
      NoCallerSaysAnything(p, p'.jobs[i].causal, p'.jobs[i].payload);
    }
    CallersCarry(p, p');
  }

  /** Resolving the held reservation answers each of its callers alike. */
  lemma ResolvedCallers(p: Process, r: nat, kept: bool, hops: Hops)
    requires CallersOk(p) && r < |p.reservations| && p.initialization == Some(r) && p.reservations[r].result.None?
    ensures CallersOk(OnInitialized(p, r, kept, hops))
  {
    var p' := OnInitialized(p, r, kept, hops);
    var result := if kept then Initialized else FAILED_INITIALIZATION;
    var callers := p.reservations[r].callers;
    var replies := RepliesTo(callers, result, hops);
    assert p'.jobs == p.jobs + replies && p'.reservations == p.reservations[r := p.reservations[r].(result := Some(result))];
    forall r': nat, i: nat | IsCaller(p', r', i) ensures CallerKnown(p', r', i) && IsCaller(p, r', i) {
      assert CallerKnown(p, r', i);
    }
    ResultStaysSaid(p, p', r, result);
    forall j | j in p'.jobs && j.Reply? ensures SaysResult(p', j.causal, j.payload) {
      if j !in p.jobs {
        var i :| 0 <= i < |callers| && replies[i] == j;
        CallerIsTold(p, p', r, i, result);
      }
    }
  }

  /** What was said about other reservations is still so once `r` resolves. */
  lemma ResultStaysSaid(p: Process, p': Process, r: nat, result: InitializeResult)
    requires r < |p.reservations| && p.reservations[r].result.None?
    requires p'.reservations == p.reservations[r := p.reservations[r].(result := Some(result))]
    ensures forall c, payload :: SaysResult(p, c, payload) ==> SaysResult(p', c, payload)
  {
    forall c, payload | SaysResult(p, c, payload) ensures SaysResult(p', c, payload) {
      forall r': nat, i: nat | IsCaller(p', r', i) && p'.reservations[r'].callers[i].causal == c
        ensures p'.reservations[r'].result.Some? && payload == InitializePayload(p'.reservations[r'].callers[i].actor, p'.reservations[r'].result.value)
      { assert IsCaller(p, r', i); }
    }
  }

  /** A caller of the resolved reservation is told its result: no other caller has its id. */
  lemma CallerIsTold(p: Process, p': Process, r: nat, i: nat, result: InitializeResult)
    requires CallersOk(p) && IsCaller(p, r, i)
    requires p'.reservations == p.reservations[r := p.reservations[r].(result := Some(result))]
    ensures SaysResult(p', p.reservations[r].callers[i].causal, InitializePayload(p.reservations[r].callers[i].actor, result))
  {
    var causal := p.reservations[r].callers[i].causal;
    forall r': nat, i': nat | IsCaller(p', r', i') && p'.reservations[r'].callers[i'].causal == causal ensures r' == r && i' == i {
      assert IsCaller(p, r', i');
    }
  }

  /** A caller whose command is new is added to an unresolved reservation. */
  lemma AddedCaller(p: Process, p': Process, r: nat, caller: Caller)
    requires CallersOk(p) && NoCaller(p, caller.causal)
    requires (forall j | j in p.jobs :: !(j.Reply? && j.causal == caller.causal)) && (forall m | m in p.emitted :: !IsReply(m, caller.causal))
    requires exists m | m in p.commands :: m.id == caller.causal && m.payload.InitializeActorHost? && m.payload.launch.actor == caller.actor
    requires p'.jobs == p.jobs && p'.emitted == p.emitted && p'.commands == p.commands
    requires r < |p'.reservations| && |p.reservations| <= |p'.reservations| <= |p.reservations| + 1
    requires r == |p.reservations| || |p'.reservations| == |p.reservations|
    requires forall i | 0 <= i < |p.reservations| && i != r :: p'.reservations[i] == p.reservations[i]
    requires if r < |p.reservations| then p'.reservations[r] == p.reservations[r].(callers := p.reservations[r].callers + [caller])
             else p'.reservations[r].callers == [caller]
    ensures CallersOk(p')
  {
    forall r': nat, i: nat | IsCaller(p', r', i)
      ensures p'.reservations[r'].callers[i] == caller || (IsCaller(p, r', i) && p'.reservations[r'].callers[i] == p.reservations[r'].callers[i])
      ensures CallerKnown(p', r', i)
    {
      if IsCaller(p, r', i) { assert CallerKnown(p, r', i); }
    }
    forall c, payload | c != caller.causal && SaysResult(p, c, payload) ensures SaysResult(p', c, payload) {
      forall r': nat, i: nat | IsCaller(p', r', i) && p'.reservations[r'].callers[i].causal == c
        ensures p'.reservations[r'].result.Some? && payload == InitializePayload(p'.reservations[r'].callers[i].actor, p'.reservations[r'].result.value)
      { assert IsCaller(p, r', i); }
    }
  }

  lemma OnSessionCallers(p: Process, e: nat, outcome: Outcome<Option<SessionId>>)
    requires CallersOk(p) && OriginsOk(p) && IdsDistinct(p.commands) && e < |p.execs|
    ensures CallersOk(OnSession(p, e, outcome))
  {
    OnSessionConcernsOne(p, e, outcome);
    ConcernsOneCallers(p, OnSession(p, e, outcome), e);
  }

  lemma OnCompletionCallers(p: Process, e: nat, outcome: Outcome<Completion>)
    requires CallersOk(p) && OriginsOk(p) && IdsDistinct(p.commands) && e < |p.execs|
    ensures CallersOk(OnCompletion(p, e, outcome))
  {
    OnCompletionConcernsOne(p, e, outcome);
    ConcernsOneCallers(p, OnCompletion(p, e, outcome), e);
  }

  lemma OnResumeCallers(p: Process, e: nat, discovered: Option<SessionId>, c: Completion, hops: Hops)
    requires CallersOk(p) && OriginsOk(p) && IdsDistinct(p.commands) && e < |p.execs|
    ensures CallersOk(OnResume(p, e, discovered, c, hops))
  {
    OnResumeConcernsOne(p, e, discovered, c, hops);
    ConcernsOneCallers(p, OnResume(p, e, discovered, c, hops), e);
  }

  lemma FailExecCallers(p: Process, e: nat, code: FaultCode)
    requires CallersOk(p) && OriginsOk(p) && IdsDistinct(p.commands) && e < |p.execs|
    ensures CallersOk(FailExec(p, e, code))
  {
    FailExecConcernsOne(p, e, code);
    ConcernsOneCallers(p, FailExec(p, e, code), e);
  }

  lemma RunHeadCallers(p: Process, hops: Hops)
    requires CallersOk(p) && OriginsOk(p) && IdsDistinct(p.commands) && ReactionsOk(p) && ReservationsOk(p)
    requires p.jobs != [] && JobInRange(p, p.jobs[0])
    ensures CallersOk(RunHead(p, hops))
  {
    var rest := p.(jobs := p.jobs[1..]);
    RestCallers(p, rest);
    assert OriginsOk(rest) by { assert Carries(p, rest); OriginsCarry(p, rest); }
    match p.jobs[0]
    case SessionReaction(e, o) => OnSessionCallers(rest, e, o);
    case CompletionReaction(e, o) => OnCompletionCallers(rest, e, o);
    case CompletionResumes(e, d, c) => OnResumeCallers(rest, e, d, c, hops);
    case StopRefused(e) => FailExecCallers(rest, e, AdapterStopFailed);
    case Report(e, s) => ReportCallers(rest, e, s);
    case InitializationReaction(r, kept) =>
      assert p.jobs[0] in p.jobs;
      ResolvedCallers(rest, r, kept, hops);
    case Reply(causal, left, payload) =>
      assert p.jobs[0] in p.jobs;
      SaysCarries(p, rest);
      ReplyCallers(rest, causal, left, payload);
  }

  lemma ReportCallers(p: Process, e: nat, s: SessionId)
    requires CallersOk(p) && e < |p.execs|
    ensures CallersOk(Emit(p, p.execs[e].causal, SessionReport(p.execs[e].spec.invocation, s)))
  {
    CallersCarry(p, Emit(p, p.execs[e].causal, SessionReport(p.execs[e].spec.invocation, s)));
  }

  lemma ReplyCallers(p: Process, causal: MessageId, left: nat, payload: HostPayload)
    requires CallersOk(p) && SaysResult(p, causal, payload)
    ensures CallersOk(Emit(p, causal, payload))
    ensures left > 0 ==> CallersOk(Queue(p, [Reply(causal, left - 1, payload)]))
  {
    CallersCarry(p, Emit(p, causal, payload));
    if left > 0 { CallersCarry(p, Queue(p, [Reply(causal, left - 1, payload)])); }
  }

  lemma RestCallers(p: Process, rest: Process)
    requires CallersOk(p) && p.jobs != [] && rest == p.(jobs := p.jobs[1..])
    ensures CallersOk(rest)
  {
    SaysCarries(p, rest);
    forall j | j in rest.jobs ensures j in p.jobs {}
    forall r: nat, i: nat | IsCaller(rest, r, i) ensures CallerKnown(rest, r, i) { assert CallerKnown(p, r, i); }
  }

  lemma ReserveCallers(p: Process, caller: Caller, launch: LaunchSpec, env: Env)
    requires CallersOk(p) && p.initialization.None? && NoCaller(p, caller.causal) && Unused(p, caller.causal)
    requires forall j | j in p.jobs :: !(j.Reply? && j.causal == caller.causal)
    requires exists m | m in p.commands :: m.id == caller.causal && m.payload.InitializeActorHost? && m.payload.launch.actor == caller.actor
    ensures CallersOk(Reserve(p, caller, launch, env))
  {
    var r := |p.reservations|;
    var reserved := p.(reservations := p.reservations + [Reservation(launch, [caller], if env.throws then Broken else Open, None)],
                       initialization := Some(r));
    AddedCaller(p, reserved, r, caller);
    if env.throws { ResolvedCallers(reserved, r, false, env.hops); }
  }

  lemma SupervisorInitializeCallers(p: Process, caller: Caller, launch: LaunchSpec, env: Env)
    requires CallersOk(p) && ReservationsOk(p) && ActiveOk(p) && NoCaller(p, caller.causal) && Unused(p, caller.causal)
    requires forall j | j in p.jobs :: !(j.Reply? && j.causal == caller.causal)
    requires exists m | m in p.commands :: m.id == caller.causal && m.payload.InitializeActorHost? && m.payload.launch.actor == caller.actor
    ensures CallersOk(SupervisorInitialize(p, caller, launch, env))
  {
    forall result ensures CallersOk(Answer(p, caller, result, env.hops)) {
      NoCallerSaysAnything(p, caller.causal, InitializePayload(caller.actor, result));
      CallersCarry(p, Answer(p, caller, result, env.hops));
    }
    if p.launchSpec.None? {
      if p.initialization.None? { ReserveCallers(p, caller, launch, env); }
      else { AddedCaller(p, Join(p, p.initialization.value, caller), p.initialization.value, caller); }
    }
  }

  lemma SeenCallers(p: Process, m: ServerMessage)
    requires CallersOk(p) && IdsDistinct(p.commands) && !KnownId(p.commands, m.id)
    ensures CallersOk(p.(commands := p.commands + [m])) && IdsDistinct(p.commands + [m])
    ensures NoCaller(p.(commands := p.commands + [m]), m.id)
  {
    var seen := p.(commands := p.commands + [m]);
    CallersCarry(p, seen);
    NewIdIsNoCaller(p, m.id);
    forall r: nat, i: nat | IsCaller(seen, r, i) ensures seen.reservations[r].callers[i].causal != m.id { assert IsCaller(p, r, i); }
    forall i, k | 0 <= i < k < |seen.commands| ensures seen.commands[i].id != seen.commands[k].id {
      if k == |p.commands| { assert p.commands[i] in p.commands; }
    }
  }

  lemma DispatchStopCallers(p: Process, causal: MessageId, target: InvocationId, env: Env)
    requires CallersOk(p) && OriginsOk(p) && IdsDistinct(p.commands) && NoCaller(p, causal)
    ensures CallersOk(DispatchStop(p, causal, target, env))
  {
    match StopRefusal(p, target)
    case Some(code) =>
      NoCallerSaysAnything(p, causal, HostFault(Some(target), code));
      CallersCarry(p, DispatchStop(p, causal, target, env));
    case None =>
      var e := p.active.value;
      var x := p.execs[e];
      var asked := p.(state := Stopping, execs := p.execs[e := x.(stopCalls := x.stopCalls + 1)]);
      CallersCarry(p, asked);
      assert OriginsOk(asked) by { assert Carries(p, asked); OriginsCarry(p, asked); }
      FailExecConcernsOne(asked, e, AdapterStopFailed);
      ConcernsOneCallers(asked, FailExec(asked, e, AdapterStopFailed), e);
  }

  lemma DispatchStartCallers(p: Process, causal: MessageId, spec: InvocationSpec, env: Env)
    requires CallersOk(p) && NoCaller(p, causal)
    ensures CallersOk(DispatchStart(p, causal, spec, env))
  {
    var p' := DispatchStart(p, causal, spec, env);
    if p'.emitted != p.emitted { NoCallerSaysAnything(p, causal, p'.emitted[|p.emitted|].payload); }
    CallersCarry(p, p');
  }

  lemma DispatchInitializeCallers(p: Process, m: ServerMessage, env: Env)
    requires CallersOk(p) && ReservationsOk(p) && ActiveOk(p) && NoCaller(p, m.id) && Unused(p, m.id)
    requires forall j | j in p.jobs :: !(j.Reply? && j.causal == m.id)
    requires m.payload.InitializeActorHost? && m in p.commands
    ensures CallersOk(DispatchInitialize(p, m.id, m.payload.launch, env))
  {
    var launch := m.payload.launch;
    if launch.project != p.identity.project || launch.actor != p.identity.actor {
      NoCallerSaysAnything(p, m.id, HostFault(None, IdentityMismatch));
      CallersCarry(p, DispatchInitialize(p, m.id, launch, env));
    } else {
      SupervisorInitializeCallers(p, Caller(m.id, launch.actor), launch, env);
    }
  }

  lemma DispatchCallers(p: Process, m: ServerMessage, env: Env)
    requires CallersOk(p) && SessionsOk(p) && StatesOk(p) && InitializationOk(p) && Accounted(p) && IdsDistinct(p.commands)
    requires Enabled(p, Command(m, env))
    ensures CallersOk(Dispatch(p, m, env))
  {
    var seen := p.(commands := p.commands + [m]);
    assert !KnownId(p.commands, m.id);
    NewIdIsUnused(p, m.id);
    SeenCallers(p, m);
    match m.payload
    case InitializeActorHost(_) =>
      forall j | j in seen.jobs ensures !(j.Reply? && j.causal == m.id) { assert JobFits(p, j) && !IsReplyTo(j, m.id); }
      DispatchInitializeCallers(seen, m, env);
    case StartInvocation(spec) => DispatchStartCallers(seen, m.id, spec, env);
    case StopInvocation(target) =>
      SeenSessions(p, m);
      DispatchStopCallers(seen, m.id, target, env);
    case _ =>
  }

  lemma AdapterInitializedCallers(p: Process, r: nat, kept: bool)
    requires CallersOk(p) && Enabled(p, AdapterInitialized(r, kept))
    ensures CallersOk(Step(p, AdapterInitialized(r, kept)))
  {
    var p' := Step(p, AdapterInitialized(r, kept));
    forall r': nat, i: nat | IsCaller(p', r', i) ensures CallerKnown(p', r', i) && IsCaller(p, r', i) { assert CallerKnown(p, r', i); }
    forall c, payload | SaysResult(p, c, payload) ensures SaysResult(p', c, payload) {
      forall r': nat, i: nat | IsCaller(p', r', i) && p'.reservations[r'].callers[i].causal == c
        ensures p'.reservations[r'].result.Some? && payload == InitializePayload(p'.reservations[r'].callers[i].actor, p'.reservations[r'].result.value)
      { assert IsCaller(p, r', i); }
    }
  }
}
