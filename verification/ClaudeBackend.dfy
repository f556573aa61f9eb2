/** The Claude Code adapter over the process runner, and what its executions make the supervisor say. */
module ClaudeBackend {
  import opened Options
  import opened HostMessages
  import opened ProcessRunner
  import opened Supervisor
  import opened SupervisorStates
  import opened SupervisorReplies
  import opened SupervisorSessions
  import opened SupervisorCallers
  import opened SupervisorStops
  import opened SupervisorRuns

  // ---------------------------------------------------------------- the terminal observation

  /** What stdout turns out to hold. */
  datatype Terminal = Unparsable | NotSuccessful | NoSessionId | Successful(session: SessionId)

  datatype Observation =
    | Success(process: ProcessFact, session: SessionId)
    | WasStopped
    | CompletionFailure
    | SessionFailure

  /** `parseTerminalSession` and `observeTerminal`. */
  function Observe(run: RunOutcome, terminal: Terminal, directive: SessionDirective): Observation {
    match run
    case RunRejected => CompletionFailure
    case RunCompleted(process) =>
      if process == Stopped then WasStopped
      else match terminal
           case Unparsable => CompletionFailure
           case NotSuccessful => CompletionFailure
           case NoSessionId => SessionFailure
           case Successful(id) =>
             if directive.ResumeSession? && id != directive.session then SessionFailure else Success(process, id)
  }

  function SessionOutcome(o: Observation): Outcome<Option<SessionId>> {
    match o
    case SessionFailure => Refused
    case Success(_, id) => Fulfilled(Some(id))
    case _ => Fulfilled(None)
  }

  function CompletionOutcome(o: Observation): Outcome<Completion> {
    match o
    case Success(process, id) => Fulfilled(Completion(Some(id), process))
    case WasStopped => Fulfilled(Completion(None, Stopped))
    case _ => Refused
  }

  /** An execution completes only as stopped, which takes a delivered kill, or with a session, which
      is the requested one when it resumes. */
  lemma CompletionMeans(h: seq<Happening>, terminal: Terminal, directive: SessionDirective)
    requires Verdict(h).Some?
    ensures var o := CompletionOutcome(Observe(Verdict(h).value, terminal, directive));
            && (o.Fulfilled? && o.value.process == Stopped ==>
                  exists k | 0 <= k < |h| :: h[k].ChildClosed? && FirstStop(h[..k]) == Some(KillSent))
            && (o.Fulfilled? && o.value.process != Stopped ==>
                  o.value.session.Some? && (directive.ResumeSession? ==> o.value.session.value == directive.session))
  {
    StoppedIff(h);
  }

  // ---------------------------------------------------------------- the children behind the executions

  /** The child process of an execution: what the invocation asks of its session, what happened to it,
      and what its output amounted to when it ended, or amounts to so far. */
  datatype Child = Child(directive: SessionDirective, history: seq<Happening>, stdout: Terminal)

  /** What `observeTerminal` makes of a child, once it has ended. */
  function Observed(c: Child): Option<Observation> {
    match Verdict(c.history)
    case None => None
    case Some(run) => Some(Observe(run, c.stdout, c.directive))
  }

  /** Output after the end is no part of the completion. */
  function Happens(c: Child, happening: Happening, stdout: Terminal): Child {
    Child(c.directive, c.history + [happening], if Verdict(c.history).None? then stdout else c.stdout)
  }

  lemma ObservedStays(c: Child, happening: Happening, stdout: Terminal)
    requires Observed(c).Some?
    ensures Observed(Happens(c, happening, stdout)) == Observed(c)
  {
    assert (c.history + [happening])[..|c.history|] == c.history;
  }

  function SessionOf(children: seq<Child>, e: nat): Option<Outcome<Option<SessionId>>> {
    if e < |children| && Observed(children[e]).Some? then Some(SessionOutcome(Observed(children[e]).value)) else None
  }

  function CompletionOf(children: seq<Child>, e: nat): Option<Outcome<Completion>> {
    if e < |children| && Observed(children[e]).Some? then Some(CompletionOutcome(Observed(children[e]).value)) else None
  }

  /** What was observed stays observed. */
  ghost predicate Grown(cs: seq<Child>, cs': seq<Child>) {
    |cs| <= |cs'| && forall e | 0 <= e < |cs| && Observed(cs[e]).Some? :: Observed(cs'[e]) == Observed(cs[e])
  }

  // ---------------------------------------------------------------- the supervisor over this adapter

  /** The adapter's promises settle as its children were observed; a stop is refused when its promise
      was rejected, and never throws. */
  predicate Conforms(ev: Event, children: seq<Child>) {
    match ev
    case SessionSettles(e, outcome) => SessionOf(children, e) == Some(outcome)
    case CompletionSettles(e, outcome) => CompletionOf(children, e) == Some(outcome)
    case StopIsRefused(e) => e < |children| && StopState(children[e].history) == Some(StopPromise.StopRefused)
    case Command(m, env) => m.payload.StopInvocation? ==> !env.throws
    case _ => true
  }

  ghost predicate JobHonors(children: seq<Child>, j: Job) {
    match j
    case SessionReaction(e, outcome) => SessionOf(children, e) == Some(outcome)
    case CompletionReaction(e, outcome) => CompletionOf(children, e) == Some(outcome)
    case CompletionResumes(e, d, c) =>
      CompletionOf(children, e) == Some(Fulfilled(c)) && (d.Some? ==> SessionOf(children, e) == Some(Fulfilled(d)))
    case _ => true
  }

  ghost predicate ExecHonors(p: Process, children: seq<Child>, e: nat)
    requires e < |p.execs|
  {
    var x := p.execs[e];
    && (x.session.Some? && x.session.value.Some? ==> SessionOf(children, e) == Some(Fulfilled(x.session.value)))
    && (x.awaiting.Some? ==> CompletionOf(children, e) == Some(Fulfilled(x.awaiting.value)))
  }

  /** A result for execution `e` repeats its completion. */
  ghost predicate ResultHonors(p: Process, children: seq<Child>, causal: MessageId, payload: HostPayload) {
    payload.ResultReport? ==>
      forall e | 0 <= e < |p.execs| && p.execs[e].causal == causal ::
        && p.execs[e].adapterCompletion == Kept
        && CompletionOf(children, e) == Some(Fulfilled(Completion(payload.result.session, payload.result.process)))
  }

  ghost predicate Honors(p: Process, children: seq<Child>) {
    && (forall e | 0 <= e < |p.execs| :: ExecHonors(p, children, e))
    && (forall j | j in p.jobs :: JobHonors(children, j) && (j.Reply? ==> ResultHonors(p, children, j.causal, j.payload)))
    && (forall m | m in p.emitted :: ResultHonors(p, children, m.causal, m.payload))
  }

  /** Executions keep their start, and what settled stays settled. */
  ghost predicate Settles(p: Process, p': Process) {
    && |p'.execs| == |p.execs|
    && (forall e | 0 <= e < |p.execs| ::
          && p'.execs[e].causal == p.execs[e].causal
          && (p.execs[e].adapterCompletion != Open ==> p'.execs[e].adapterCompletion == p.execs[e].adapterCompletion))
  }

  /** Only changed executions, new jobs and new emissions need a look. */
  lemma HonorsCarries(p: Process, p': Process, children: seq<Child>)
    requires Honors(p, children) && Settles(p, p') && p.jobs <= p'.jobs && p.emitted <= p'.emitted
    requires forall e | 0 <= e < |p.execs| :: ExecHonors(p', children, e)
    requires forall i | |p.jobs| <= i < |p'.jobs| ::
               JobHonors(children, p'.jobs[i]) && (p'.jobs[i].Reply? ==> ResultHonors(p', children, p'.jobs[i].causal, p'.jobs[i].payload))
    requires forall i | |p.emitted| <= i < |p'.emitted| :: ResultHonors(p', children, p'.emitted[i].causal, p'.emitted[i].payload)
    ensures Honors(p', children)
  {
    ResultsCarry(p, p', children);
    forall j | j in p'.jobs ensures JobHonors(children, j) && (j.Reply? ==> ResultHonors(p', children, j.causal, j.payload)) {
      var i :| 0 <= i < |p'.jobs| && p'.jobs[i] == j;
      if i < |p.jobs| { assert p.jobs[i] in p.jobs; }
    }
    forall m | m in p'.emitted ensures ResultHonors(p', children, m.causal, m.payload) {
      var i :| 0 <= i < |p'.emitted| && p'.emitted[i] == m;
      if i < |p.emitted| { assert p.emitted[i] in p.emitted; }
    }
  }

  lemma ResultsCarry(p: Process, p': Process, children: seq<Child>)
    requires Settles(p, p')
    ensures forall c, payload :: ResultHonors(p, children, c, payload) ==> ResultHonors(p', children, c, payload)
  {
    forall c, payload | ResultHonors(p, children, c, payload) ensures ResultHonors(p', children, c, payload) {
      forall e | 0 <= e < |p'.execs| && p'.execs[e].causal == c && payload.ResultReport?
        ensures p'.execs[e].adapterCompletion == Kept
                && CompletionOf(children, e) == Some(Fulfilled(Completion(payload.result.session, payload.result.process)))
      { assert p.execs[e].causal == c; }
    }
  }

  lemma FailExecHonors(p: Process, e: nat, code: FaultCode, children: seq<Child>)
    requires Honors(p, children)
    ensures Honors(FailExec(p, e, code), children)
  {
    var p' := FailExec(p, e, code);
    if p' != p {
      forall i | 0 <= i < |p.execs| ensures ExecHonors(p', children, i) { assert ExecHonors(p, children, i); }
      HonorsCarries(p, p', children);
    }
  }

  lemma ResolveSessionHonors(p: Process, e: nat, session: Option<SessionId>, children: seq<Child>)
    requires Honors(p, children) && e < |p.execs|
    requires session.Some? ==> SessionOf(children, e) == Some(Fulfilled(session))
    ensures Honors(ResolveSession(p, e, session), children)
  {
    var p' := ResolveSession(p, e, session);
    forall i | 0 <= i < |p.execs| ensures ExecHonors(p', children, i) { assert ExecHonors(p, children, i); }
    assert ExecHonors(p, children, e);
    HonorsCarries(p, p', children);
  }

  lemma OnSessionHonors(p: Process, e: nat, outcome: Outcome<Option<SessionId>>, children: seq<Child>)
    requires Honors(p, children) && e < |p.execs| && SessionOf(children, e) == Some(outcome)
    ensures Honors(OnSession(p, e, outcome), children)
  {
    match outcome
    case Refused =>
      FailExecHonors(p, e, SessionObservationFailed, children);
      ResolveSessionHonors(FailExec(p, e, SessionObservationFailed), e, None, children);
    case Fulfilled(session) =>
      ResolveSessionHonors(p, e, None, children);
      var noted := if session.Some? && p.active == Some(e) then p.(sessionId := session) else p;
      SameExecsHonor(p, noted, children);
      ResolveSessionHonors(noted, e, session, children);
  }

  lemma SameExecsHonor(p: Process, p': Process, children: seq<Child>)
    requires Honors(p, children) && p'.execs == p.execs && p.jobs <= p'.jobs && p'.emitted == p.emitted
    requires forall i | |p.jobs| <= i < |p'.jobs| ::
               JobHonors(children, p'.jobs[i]) && (p'.jobs[i].Reply? ==> ResultHonors(p', children, p'.jobs[i].causal, p'.jobs[i].payload))
    ensures Honors(p', children)
  {
    forall i | 0 <= i < |p.execs| ensures ExecHonors(p', children, i) { assert ExecHonors(p, children, i); }
    HonorsCarries(p, p', children);
  }

  lemma OnCompletionHonors(p: Process, e: nat, outcome: Outcome<Completion>, children: seq<Child>)
    requires Honors(p, children) && e < |p.execs| && CompletionOf(children, e) == Some(outcome)
    ensures Honors(OnCompletion(p, e, outcome), children)
  {
    var marked := p.(execs := p.execs[e := p.execs[e].(completionSettled := true)]);
    forall i | 0 <= i < |p.execs| ensures ExecHonors(marked, children, i) { assert ExecHonors(p, children, i); }
    HonorsCarries(p, marked, children);
    match outcome
    case Refused => FailExecHonors(marked, e, CompletionObservationFailed, children);
    case Fulfilled(c) =>
      var p' := OnCompletion(p, e, outcome);
      forall i | 0 <= i < |p.execs| ensures ExecHonors(p', children, i) { assert ExecHonors(marked, children, i); }
      assert ExecHonors(p, children, e);
      HonorsCarries(marked, p', children);
  }

  lemma OnResumeHonors(p: Process, e: nat, d: Option<SessionId>, c: Completion, hops: Hops, children: seq<Child>)
    requires Honors(p, children) && OriginsOk(p) && e < |p.execs| && p.execs[e].adapterCompletion == Kept
    requires JobHonors(children, CompletionResumes(e, d, c))
    ensures Honors(OnResume(p, e, d, c, hops), children)
  {
    var p' := OnResume(p, e, d, c, hops);
    if !p.execs[e].settled {
      forall i | 0 <= i < |p.execs| ensures ExecHonors(p', children, i) { assert ExecHonors(p, children, i); }
      var reply := p'.jobs[|p.jobs|];
      forall i | 0 <= i < |p'.execs| && p'.execs[i].causal == reply.causal ensures i == e {
        assert p.execs[i].causal == p.execs[e].causal;
      }
      assert reply.payload.result.session == c.session && reply.payload.result.process == c.process;
      assert ResultHonors(p', children, reply.causal, reply.payload);
      HonorsCarries(p, p', children);
    }
  }

  lemma EmitHonors(p: Process, causal: MessageId, payload: HostPayload, children: seq<Child>)
    requires Honors(p, children) && ResultHonors(p, children, causal, payload)
    ensures Honors(Emit(p, causal, payload), children)
  {
    var p' := Emit(p, causal, payload);
    forall i | 0 <= i < |p.execs| ensures ExecHonors(p', children, i) { assert ExecHonors(p, children, i); }
    ResultsCarry(p, p', children);
    HonorsCarries(p, p', children);
  }

  lemma RunHeadHonors(p: Process, hops: Hops, children: seq<Child>)
    requires Honors(p, children) && OriginsOk(p) && CompletionsOk(p) && p.jobs != [] && JobInRange(p, p.jobs[0])
    ensures Honors(RunHead(p, hops), children)
  {
    var rest := p.(jobs := p.jobs[1..]);
    RestHonors(p, rest, children);
    match p.jobs[0]
    case SessionReaction(e, outcome) => OnSessionHonors(rest, e, outcome, children);
    case CompletionReaction(e, outcome) => OnCompletionHonors(rest, e, outcome, children);
    case CompletionResumes(e, d, c) => OnResumeHonors(rest, e, d, c, hops, children);
    case StopRefused(e) => FailExecHonors(rest, e, AdapterStopFailed, children);
    case Report(e, s) => EmitHonors(rest, p.execs[e].causal, SessionReport(p.execs[e].spec.invocation, s), children);
    case InitializationReaction(r, kept) => SameExecsHonor(rest, RunHead(p, hops), children);
    case Reply(causal, left, payload) =>
      if left > 0 { SameExecsHonor(rest, RunHead(p, hops), children); } else { EmitHonors(rest, causal, payload, children); }
  }

  lemma RestHonors(p: Process, rest: Process, children: seq<Child>)
    requires Honors(p, children) && OriginsOk(p) && CompletionsOk(p) && p.jobs != [] && rest == p.(jobs := p.jobs[1..])
    ensures Honors(rest, children) && OriginsOk(rest) && JobHonors(children, p.jobs[0])
    ensures CompletionKnown(p, p.jobs[0])
    ensures p.jobs[0].Reply? ==> ResultHonors(rest, children, p.jobs[0].causal, p.jobs[0].payload)
  {
    assert p.jobs[0] in p.jobs;
    assert Carries(p, rest);
    OriginsCarry(p, rest);
    ResultsCarry(p, rest, children);
    forall e | 0 <= e < |p.execs| ensures ExecHonors(rest, children, e) { assert ExecHonors(p, children, e); }
    forall j | j in rest.jobs ensures j in p.jobs {}
  }

  lemma DispatchInitializeHonors(p: Process, causal: MessageId, launch: LaunchSpec, env: Env, children: seq<Child>)
    requires Honors(p, children)
    ensures Honors(DispatchInitialize(p, causal, launch, env), children)
  {
    if launch.project != p.identity.project || launch.actor != p.identity.actor {
      EmitHonors(p, causal, HostFault(None, IdentityMismatch), children);
    } else {
      SameExecsHonor(p, DispatchInitialize(p, causal, launch, env), children);
    }
  }

  lemma DispatchHonors(p: Process, m: ServerMessage, env: Env, children: seq<Child>)
    requires Honors(p, children) && OriginsOk(p) && Accounted(p) && JobsFit(p) && Enabled(p, Command(m, env))
    ensures Honors(Dispatch(p, m, env), children)
  {
    var seen := p.(commands := p.commands + [m]);
    SameExecsHonor(p, seen, children);
    match m.payload
    case InitializeActorHost(launch) => DispatchInitializeHonors(seen, m.id, launch, env, children);
    case StartInvocation(spec) =>
      assert !KnownId(p.commands, m.id);
      NewIdIsUnused(p, m.id);
      JobsStillFit(p, seen);
      DispatchStartHonors(seen, m.id, spec, env, children);
    case StopInvocation(target) => DispatchStopHonors(seen, m.id, target, env, children);
    case _ =>
  }

  lemma JobsStillFit(p: Process, seen: Process)
    requires JobsFit(p) && seen.execs == p.execs && seen.jobs == p.jobs
    ensures JobsFit(seen)
  {
    assert Carries(p, seen);
    JobsCarry(p, seen, 0);
  }

  lemma DispatchStartHonors(p: Process, causal: MessageId, spec: InvocationSpec, env: Env, children: seq<Child>)
    requires Honors(p, children) && JobsFit(p) && Unused(p, causal)
    ensures Honors(DispatchStart(p, causal, spec, env), children)
  {
    var p' := DispatchStart(p, causal, spec, env);
    if p'.emitted != p.emitted {
      assert forall e | 0 <= e < |p.execs| :: p.execs[e] in p.execs;
      EmitHonors(p, causal, p'.emitted[|p.emitted|].payload, children);
    } else {
      forall e | 0 <= e < |p'.execs| ensures ExecHonors(p', children, e) {
        if e < |p.execs| { assert ExecHonors(p, children, e); }
      }
      forall j | j in p'.jobs ensures JobHonors(children, j) && (j.Reply? ==> ResultHonors(p', children, j.causal, j.payload)) {
        assert JobFits(p, j) && !IsReplyTo(j, causal);
      }
      forall m | m in p'.emitted ensures ResultHonors(p', children, m.causal, m.payload) {
        assert !IsReply(m, causal);
      }
    }
  }

  lemma DispatchStopHonors(p: Process, causal: MessageId, target: InvocationId, env: Env, children: seq<Child>)
    requires Honors(p, children)
    ensures Honors(DispatchStop(p, causal, target, env), children)
  {
    match StopRefusal(p, target)
    case Some(code) => EmitHonors(p, causal, HostFault(Some(target), code), children);
    case None =>
      var e := p.active.value;
      var x := p.execs[e];
      var asked := p.(state := Stopping, execs := p.execs[e := x.(stopCalls := x.stopCalls + 1)]);
      forall i | 0 <= i < |p.execs| ensures ExecHonors(asked, children, i) { assert ExecHonors(p, children, i); }
      HonorsCarries(p, asked, children);
      FailExecHonors(asked, e, AdapterStopFailed, children);
  }

  lemma SettlementHonors(p: Process, ev: Event, children: seq<Child>)
    requires Honors(p, children) && Enabled(p, ev) && Conforms(ev, children) && !ev.Command? && !ev.RunJob?
    ensures Honors(Step(p, ev), children)
  {
    var p' := Step(p, ev);
    forall i | 0 <= i < |p.execs| ensures ExecHonors(p', children, i) { assert ExecHonors(p, children, i); }
    HonorsCarries(p, p', children);
  }

  lemma StepHonors(p: Process, ev: Event, children: seq<Child>)
    requires Honors(p, children) && Sound(p) && Enabled(p, ev) && Conforms(ev, children)
    ensures Honors(Step(p, ev), children)
  {
    match ev
    case Command(m, env) => DispatchHonors(p, m, env, children);
    case RunJob(hops) => RunHeadHonors(p, hops, children);
    case _ => SettlementHonors(p, ev, children);
  }

  /** More observed does not take back what was honored. */
  lemma GrownHonors(p: Process, cs: seq<Child>, cs': seq<Child>)
    requires Honors(p, cs) && Grown(cs, cs')
    ensures Honors(p, cs')
  {
    forall e | 0 <= e < |p.execs| ensures ExecHonors(p, cs', e) { assert ExecHonors(p, cs, e); }
    forall c, payload | ResultHonors(p, cs, c, payload) ensures ResultHonors(p, cs', c, payload) {}
    forall j | j in p.jobs ensures JobHonors(cs', j) && (j.Reply? ==> ResultHonors(p, cs', j.causal, j.payload)) {
      assert JobHonors(cs, j);
    }
  }

  // ---------------------------------------------------------------- supervisor and children together

  /** Execution `e` of the supervisor runs child `e`. */
  datatype Machine = Machine(supervisor: Process, children: seq<Child>)

  /** `kill` is what `child.kill()` does, should the event call a `stop`. */
  datatype BackendEvent =
    | Supervised(event: Event, kill: Kill)
    | ChildDoes(exec: nat, happening: Happening, stdout: Terminal)

  predicate CanHappen(m: Machine, be: BackendEvent) {
    match be
    case Supervised(ev, _) => Enabled(m.supervisor, ev) && Conforms(ev, m.children)
    case ChildDoes(e, happening, _) => e < |m.children| && !happening.StopCalled?
  }

  /** A started execution gets its child, and an execution's `stop` is its child's. */
  function ChildrenAfter(p: Process, ev: Event, kill: Kill, children: seq<Child>): seq<Child>
    requires Enabled(p, ev)
  {
    var p' := Supervisor.Step(p, ev);
    if |p.execs| < |p'.execs| then children + [Child(p'.execs[|p.execs|].spec.directive, [], Unparsable)]
    else match StopCalledBy(p, ev)
         case None => children
         case Some(e) => if e < |children| then children[e := Happens(children[e], StopCalled(kill), children[e].stdout)] else children
  }

  function MachineStep(m: Machine, be: BackendEvent): Machine
    requires CanHappen(m, be)
  {
    match be
    case Supervised(ev, kill) => Machine(Supervisor.Step(m.supervisor, ev), ChildrenAfter(m.supervisor, ev, kill, m.children))
    case ChildDoes(e, happening, stdout) => m.(children := m.children[e := Happens(m.children[e], happening, stdout)])
  }

  /** The call of `stop` in an event. */
  function StopIn(m: Machine, be: BackendEvent): Option<nat> {
    if be.Supervised? then StopCalledBy(m.supervisor, be.event) else None
  }

  ghost predicate ChildrenFit(m: Machine) {
    && |m.children| == |m.supervisor.execs|
    && forall e | 0 <= e < |m.children| :: m.children[e].directive == m.supervisor.execs[e].spec.directive
  }

  ghost predicate MachineOk(m: Machine) {
    Sound(m.supervisor) && Honors(m.supervisor, m.children) && ChildrenFit(m)
  }

  lemma ChildGrows(cs: seq<Child>, e: nat, happening: Happening, stdout: Terminal)
    requires e < |cs|
    ensures Grown(cs, cs[e := Happens(cs[e], happening, stdout)])
  {
    if Observed(cs[e]).Some? { ObservedStays(cs[e], happening, stdout); }
  }

  lemma ChildrenGrow(p: Process, ev: Event, kill: Kill, cs: seq<Child>)
    requires Enabled(p, ev)
    ensures Grown(cs, ChildrenAfter(p, ev, kill, cs))
  {
    var stopped := StopCalledBy(p, ev);
    if stopped.Some? && stopped.value < |cs| { ChildGrows(cs, stopped.value, StopCalled(kill), cs[stopped.value].stdout); }
  }

  lemma SupervisedFits(m: Machine, ev: Event, kill: Kill)
    requires ChildrenFit(m) && CanHappen(m, Supervised(ev, kill))
    ensures ChildrenFit(MachineStep(m, Supervised(ev, kill)))
  {
    StepMoves(m.supervisor, ev);
    OneExecAtMost(m.supervisor, ev);
  }

  lemma OneExecAtMost(p: Process, ev: Event)
    requires Enabled(p, ev)
    ensures |Supervisor.Step(p, ev).execs| <= |p.execs| + 1
  {
    match ev
    case Command(m, env) =>
      if m.payload.InitializeActorHost? { DispatchInitializeMoves(p.(commands := p.commands + [m]), m.id, m.payload.launch, env); }
    case RunJob(hops) => RunHeadMakesNoStop(p, hops);
    case _ =>
  }

  lemma MachineStepKeeps(m: Machine, be: BackendEvent)
    requires MachineOk(m) && CanHappen(m, be)
    ensures MachineOk(MachineStep(m, be))
  {
    match be
    case Supervised(ev, kill) =>
      StepKeeps(m.supervisor, ev);
      StepHonors(m.supervisor, ev, m.children);
      ChildrenGrow(m.supervisor, ev, kill, m.children);
      GrownHonors(Supervisor.Step(m.supervisor, ev), m.children, ChildrenAfter(m.supervisor, ev, kill, m.children));
      SupervisedFits(m, ev, kill);
    case ChildDoes(e, happening, stdout) =>
      ChildGrows(m.children, e, happening, stdout);
      GrownHonors(m.supervisor, m.children, MachineStep(m, be).children);
  }

  // ---------------------------------------------------------------- whole runs over this adapter

  /** `machines` are the states a run passes through, one more than its events. */
  ghost predicate RunsOver(identity: Identity, adapter: int, events: seq<BackendEvent>, machines: seq<Machine>) {
    && |machines| == |events| + 1 && machines[0] == Machine(Born(identity, adapter), [])
    && forall i | 0 <= i < |events| :: CanHappen(machines[i], events[i]) && machines[i + 1] == MachineStep(machines[i], events[i])
  }

  lemma {:induction false} EveryMachineIsOk(identity: Identity, adapter: int, events: seq<BackendEvent>, machines: seq<Machine>, i: nat)
    requires RunsOver(identity, adapter, events, machines) && i < |machines|
    ensures MachineOk(machines[i])
  {
    if i == 0 {
      BornIsSound(identity, adapter);
    } else {
      EveryMachineIsOk(identity, adapter, events, machines, i - 1);
      MachineStepKeeps(machines[i - 1], events[i - 1]);
    }
  }

  ghost function Supervisors(machines: seq<Machine>): (r: seq<Process>)
    ensures |r| == |machines| && forall i | 0 <= i < |machines| :: r[i] == machines[i].supervisor
  {
    seq(|machines|, i requires 0 <= i < |machines| => machines[i].supervisor)
  }

  /** The calls of `stop` in a run. */
  ghost function StopsIn(events: seq<BackendEvent>, machines: seq<Machine>): (r: seq<Option<nat>>)
    requires |machines| == |events| + 1
    ensures |r| == |events| && forall i | 0 <= i < |events| :: r[i] == StopIn(machines[i], events[i])
  {
    seq(|events|, i requires 0 <= i < |events| => StopIn(machines[i], events[i]))
  }

  lemma MachinesMove(identity: Identity, adapter: int, events: seq<BackendEvent>, machines: seq<Machine>)
    requires RunsOver(identity, adapter, events, machines)
    ensures Moving(Supervisors(machines), StopsIn(events, machines))
  {
    forall i | 0 <= i < |events| ensures Moves(machines[i].supervisor, machines[i + 1].supervisor, StopIn(machines[i], events[i])) {
      if events[i].Supervised? { StepMoves(machines[i].supervisor, events[i].event); }
    }
  }

  /** A call of `stop` in a child's history was made by an event, with what that event's kill did. */
  lemma {:induction false} StopsAreTraced(identity: Identity, adapter: int, events: seq<BackendEvent>, machines: seq<Machine>,
                                          i: nat, e: nat, k: nat) returns (n: nat)
    requires RunsOver(identity, adapter, events, machines) && i < |machines| && e < |machines[i].children|
    requires k < |machines[i].children[e].history| && machines[i].children[e].history[k].StopCalled?
    ensures n < i && StopIn(machines[n], events[n]) == Some(e)
    ensures events[n].Supervised? && machines[i].children[e].history[k] == StopCalled(events[n].kill)
  {
    var before, be := machines[i - 1], events[i - 1];
    if e < |before.children| && k < |before.children[e].history| {
      HistoriesStay(before, be, e);
      n := StopsAreTraced(identity, adapter, events, machines, i - 1, e, k);
    } else {
      n := i - 1;
      NewestIsTheEvent(before, be, e, k);
    }
  }

  lemma HistoriesStay(m: Machine, be: BackendEvent, e: nat)
    requires CanHappen(m, be) && e < |m.children|
    ensures e < |MachineStep(m, be).children| && m.children[e].history <= MachineStep(m, be).children[e].history
  {}

  /** What an event adds to a history is a call of `stop` only when the event makes that call. */
  lemma NewestIsTheEvent(m: Machine, be: BackendEvent, e: nat, k: nat)
    requires CanHappen(m, be) && e < |MachineStep(m, be).children| && k < |MachineStep(m, be).children[e].history|
    requires e < |m.children| ==> |m.children[e].history| <= k
    requires MachineStep(m, be).children[e].history[k].StopCalled?
    ensures StopIn(m, be) == Some(e) && be.Supervised? && MachineStep(m, be).children[e].history[k] == StopCalled(be.kill)
  {}

  /** Event `n` is the one call of the execution's `stop`: an accepted stop command for its invocation
      while it was active and running, and its kill was delivered. */
  ghost predicate KilledBy(events: seq<BackendEvent>, machines: seq<Machine>, n: nat, e: nat)
    requires n < |events| && |machines| == |events| + 1 && e < |machines[|events|].supervisor.execs|
  {
    var p := machines[n].supervisor;
    && events[n].Supervised? && events[n].kill == KillSent
    && events[n].event.Command? && events[n].event.message.payload == StopInvocation(machines[|events|].supervisor.execs[e].spec.invocation)
    && p.active == Some(e) && p.state == Running && e < |p.execs| && !p.execs[e].settled
    && forall i | 0 <= i < |events| && StopIn(machines[i], events[i]) == Some(e) :: i == n
  }

  /** The child closed, before any other end, after a first stop whose kill was delivered. */
  ghost predicate ClosedAfterKill(c: Child) {
    exists k | 0 <= k < |c.history| ::
      c.history[k].ChildClosed? && (forall i | 0 <= i < k :: !Ends(c.history[i])) && FirstStop(c.history[..k]) == Some(KillSent)
  }

  lemma OnlyOneStop(identity: Identity, adapter: int, events: seq<BackendEvent>, machines: seq<Machine>, n: nat, e: nat)
    requires RunsOver(identity, adapter, events, machines) && n < |events| && StopIn(machines[n], events[n]) == Some(e)
    requires e < |machines[|events|].supervisor.execs|
    ensures forall i | 0 <= i < |events| && StopIn(machines[i], events[i]) == Some(e) :: i == n
  {
    var states, stops := Supervisors(machines), StopsIn(events, machines);
    EveryMachineIsOk(identity, adapter, events, machines, |events|);
    StoppedAtMostOnce(machines[|events|].supervisor, e);
    MachinesMove(identity, adapter, events, machines);
    StopsAreCounted(states, stops, e);
    assert StoppedAt(stops, n, e);
    forall i | 0 <= i < |events| && StopIn(machines[i], events[i]) == Some(e) ensures i == n { assert StoppedAt(stops, i, e); }
  }

  /** A delivered kill in a child's history goes back to the one accepted stop of its execution. */
  lemma KillIsTraced(identity: Identity, adapter: int, events: seq<BackendEvent>, machines: seq<Machine>, e: nat, k: nat) returns (n: nat)
    requires RunsOver(identity, adapter, events, machines) && e < |machines[|events|].children| == |machines[|events|].supervisor.execs|
    requires k < |machines[|events|].children[e].history| && machines[|events|].children[e].history[k] == StopCalled(KillSent)
    ensures n < |events| && KilledBy(events, machines, n, e)
  {
    n := StopsAreTraced(identity, adapter, events, machines, |events|, e, k);
    EveryMachineIsOk(identity, adapter, events, machines, n);
    StopIsAccepted(machines[n].supervisor, events[n].event);
    OnlyOneStop(identity, adapter, events, machines, n, e);
    MachinesMove(identity, adapter, events, machines);
    ExecsStay(Supervisors(machines), StopsIn(events, machines), n, |events|, e);
  }

  lemma StoppedChildWasKilled(c: Child)
    requires Verdict(c.history) == Some(RunCompleted(Stopped))
    ensures ClosedAfterKill(c) && exists i: nat :: i < |c.history| && c.history[i] == StopCalled(KillSent)
  {
    var h := c.history;
    StoppedIff(h);
    var k :| 0 <= k < |h| && h[k].ChildClosed? && (forall i | 0 <= i < k :: !Ends(h[i])) && FirstStop(h[..k]) == Some(KillSent);
    FirstStopIsThere(h[..k]);
    var i: nat :| i < k && h[..k][i] == StopCalled(KillSent);
    assert h[i] == StopCalled(KillSent);
  }

  /** The child of an execution that answered with a result. */
  lemma ResultTells(m: Machine, reply: Emission, e: nat)
    requires MachineOk(m) && reply in m.supervisor.emitted && reply.payload.ResultReport?
    requires e < |m.supervisor.execs| && m.supervisor.execs[e].causal == reply.causal
    ensures Verdict(m.children[e].history) == Some(RunCompleted(reply.payload.result.process))
    ensures reply.payload.result.process != Stopped ==>
              && m.children[e].stdout.Successful? && reply.payload.result.session == Some(m.children[e].stdout.session)
              && (m.supervisor.execs[e].spec.directive.ResumeSession? ==>
                    m.children[e].stdout.session == m.supervisor.execs[e].spec.directive.session)
  {
    assert ResultHonors(m.supervisor, m.children, reply.causal, reply.payload);
  }

  /** In every run of the supervisor over this adapter, for every result it sends for an execution. A
      stopped result means that exactly one stop was accepted for it, by a command naming its invocation
      while it was active and running, that the kill this made was delivered, and that the child closed
      after it. Any other result says how the child ended and carries the session its output reported,
      which for a resume is the requested one. */
  lemma ResultsTellTheTruth(identity: Identity, adapter: int, events: seq<BackendEvent>, machines: seq<Machine>, reply: Emission, e: nat)
    requires RunsOver(identity, adapter, events, machines)
    requires reply in machines[|events|].supervisor.emitted && reply.payload.ResultReport?
    requires e < |machines[|events|].supervisor.execs| && machines[|events|].supervisor.execs[e].causal == reply.causal
    ensures e < |machines[|events|].children|
    ensures reply.payload.result.process == Stopped ==>
              && ClosedAfterKill(machines[|events|].children[e])
              && exists n: nat :: n < |events| && KilledBy(events, machines, n, e)
    ensures reply.payload.result.process != Stopped ==>
              var c := machines[|events|].children[e];
              && Verdict(c.history) == Some(RunCompleted(reply.payload.result.process))
              && c.stdout.Successful? && reply.payload.result.session == Some(c.stdout.session)
              && (c.directive.ResumeSession? ==> c.stdout.session == c.directive.session)
  {
    var m := machines[|events|];
    EveryMachineIsOk(identity, adapter, events, machines, |events|);
    ResultTells(m, reply, e);
    if reply.payload.result.process == Stopped {
      StoppedChildWasKilled(m.children[e]);
      var k: nat :| k < |m.children[e].history| && m.children[e].history[k] == StopCalled(KillSent);
      var n := KillIsTraced(identity, adapter, events, machines, e, k);
    }
  }
}
