/** What calls an execution's `stop`, step by step and over a whole sequence of steps. */
module SupervisorStops {
  import opened HostMessages
  import opened Supervisor
  import opened SupervisorStates
  import opened SupervisorCallers
  import opened Options

  /** The execution whose `stop` an event calls, if it does. */
  function StopCalledBy(p: Process, ev: Event): Option<nat> {
    if ev.Command? && ev.message.payload.StopInvocation? && StopRefusal(p, ev.message.payload.target).None?
       && !p.execs[p.active.value].completionSettled && p.state != Stopping
    then p.active else None
  }

  /** Executions stay, with their start; only `stopped` gets one more call of `stop`, and a new
      execution has had none. */
  ghost predicate Moves(p: Process, p': Process, stopped: Option<nat>) {
    && (stopped.Some? ==> stopped.value < |p.execs|)
    && |p.execs| <= |p'.execs|
    && (forall e | 0 <= e < |p.execs| ::
          && p'.execs[e].causal == p.execs[e].causal && p'.execs[e].spec == p.execs[e].spec
          && p'.execs[e].stopCalls == p.execs[e].stopCalls + (if stopped == Some(e) then 1 else 0))
    && (forall e | |p.execs| <= e < |p'.execs| :: p'.execs[e].stopCalls == 0)
  }

  lemma RunHeadMakesNoStop(p: Process, hops: Hops)
    requires p.jobs != [] && JobInRange(p, p.jobs[0])
    ensures SameStops(p, RunHead(p, hops))
  {
    var rest := p.(jobs := p.jobs[1..]);
    match p.jobs[0]
    case SessionReaction(e, o) => OnSessionConcernsOne(rest, e, o);
    case CompletionReaction(e, o) => OnCompletionConcernsOne(rest, e, o);
    case CompletionResumes(e, d, c) => OnResumeConcernsOne(rest, e, d, c, hops);
    case StopRefused(e) => FailExecConcernsOne(rest, e, AdapterStopFailed);
    case _ =>
  }

  /** A stop command counts one call on the active execution, unless it is refused or comes late. */
  lemma DispatchStopMoves(p: Process, causal: MessageId, target: InvocationId, env: Env)
    ensures Moves(p, DispatchStop(p, causal, target, env),
                  if StopRefusal(p, target).None? && !p.execs[p.active.value].completionSettled && p.state != Stopping then p.active else None)
  {
    if StopRefusal(p, target).None? && !p.execs[p.active.value].completionSettled && p.state != Stopping {
      var e := p.active.value;
      var asked := p.(state := Stopping, execs := p.execs[e := p.execs[e].(stopCalls := p.execs[e].stopCalls + 1)]);
      FailExecConcernsOne(asked, e, AdapterStopFailed);
    }
  }

  lemma DispatchStartMoves(p: Process, causal: MessageId, spec: InvocationSpec, env: Env)
    ensures Moves(p, DispatchStart(p, causal, spec, env), None)
  {}

  lemma DispatchInitializeMoves(p: Process, causal: MessageId, launch: LaunchSpec, env: Env)
    ensures DispatchInitialize(p, causal, launch, env).execs == p.execs
  {}

  lemma DispatchMoves(p: Process, m: ServerMessage, env: Env)
    ensures Moves(p, Dispatch(p, m, env), StopCalledBy(p, Command(m, env)))
  {
    var seen := p.(commands := p.commands + [m]);
    match m.payload
    case InitializeActorHost(launch) => DispatchInitializeMoves(seen, m.id, launch, env);
    case StartInvocation(spec) => DispatchStartMoves(seen, m.id, spec, env);
    case StopInvocation(target) => DispatchStopMoves(seen, m.id, target, env);
    case _ =>
  }

  /** Of all events only a stop command that is accepted calls `stop`, once, on the active execution. */
  lemma StepMoves(p: Process, ev: Event)
    requires Enabled(p, ev)
    ensures Moves(p, Step(p, ev), StopCalledBy(p, ev))
  {
    match ev
    case Command(m, env) => DispatchMoves(p, m, env);
    case RunJob(hops) => RunHeadMakesNoStop(p, hops);
    case _ =>
  }

  /** The command names the execution's invocation, and the execution is active and running. */
  lemma StopIsAccepted(p: Process, ev: Event)
    requires StatesOk(p) && StopCalledBy(p, ev).Some?
    ensures var e := StopCalledBy(p, ev).value;
            && e < |p.execs| && p.active == Some(e) && p.state == Running && !p.execs[e].settled
            && ev.Command? && ev.message.payload == StopInvocation(p.execs[e].spec.invocation)
  {}

  // ---------------------------------------------------------------- sequences of steps

  /** `states` move one after another, by the calls of `stop` that `stops` says. */
  ghost predicate Moving(states: seq<Process>, stops: seq<Option<nat>>) {
    |states| == |stops| + 1 && states[0].execs == []
    && forall i | 0 <= i < |stops| :: Moves(states[i], states[i + 1], stops[i])
  }

  predicate StoppedAt(stops: seq<Option<nat>>, n: nat, e: nat) {
    n < |stops| && stops[n] == Some(e)
  }

  function Count(stops: seq<Option<nat>>, e: nat): nat {
    if stops == [] then 0 else Count(stops[..|stops| - 1], e) + (if stops[|stops| - 1] == Some(e) then 1 else 0)
  }

  lemma {:induction false} CountIsRecorded(states: seq<Process>, stops: seq<Option<nat>>, i: nat, e: nat)
    requires Moving(states, stops) && i <= |stops|
    ensures Count(stops[..i], e) == if e < |states[i].execs| then states[i].execs[e].stopCalls else 0
  {
    if i > 0 {
      CountIsRecorded(states, stops, i - 1, e);
      assert stops[..i][..i - 1] == stops[..i - 1];
      assert Moves(states[i - 1], states[i], stops[i - 1]);
    }
  }

  lemma {:induction false} CountMeans(stops: seq<Option<nat>>, e: nat)
    ensures Count(stops, e) > 0 <==> exists n :: StoppedAt(stops, n, e)
    ensures Count(stops, e) <= 1 ==> forall m, n | StoppedAt(stops, m, e) && StoppedAt(stops, n, e) :: m == n
  {
    if stops != [] {
      var k := |stops| - 1;
      CountMeans(stops[..k], e);
      forall n: nat | n < k ensures StoppedAt(stops[..k], n, e) <==> StoppedAt(stops, n, e) {}
      if stops[k] == Some(e) { assert StoppedAt(stops, k, e); }
      if n :| StoppedAt(stops[..k], n, e) { assert StoppedAt(stops, n, e); }
    }
  }

  /** The calls recorded on an execution are those of the steps. */
  lemma StopsAreCounted(states: seq<Process>, stops: seq<Option<nat>>, e: nat)
    requires Moving(states, stops) && e < |states[|stops|].execs| && states[|stops|].execs[e].stopCalls <= 1
    ensures states[|stops|].execs[e].stopCalls == 1 <==> exists n :: StoppedAt(stops, n, e)
    ensures forall m, n | StoppedAt(stops, m, e) && StoppedAt(stops, n, e) :: m == n
  {
    CountIsRecorded(states, stops, |stops|, e);
    assert stops[..|stops|] == stops;
    CountMeans(stops, e);
  }

  lemma {:induction false} ExecsStay(states: seq<Process>, stops: seq<Option<nat>>, i: nat, k: nat, e: nat)
    requires Moving(states, stops) && i <= k <= |stops| && e < |states[i].execs|
    ensures e < |states[k].execs|
    ensures states[k].execs[e].causal == states[i].execs[e].causal && states[k].execs[e].spec == states[i].execs[e].spec
    decreases k
  {
    if i < k {
      ExecsStay(states, stops, i, k - 1, e);
      assert Moves(states[k - 1], states[k], stops[k - 1]);
    }
  }
}
