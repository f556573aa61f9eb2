/** Whole runs of the supervisor and its command processor. */
module SupervisorRuns {
  import opened HostMessages
  import opened Supervisor
  import opened SupervisorStates
  import opened SupervisorReplies
  import opened SupervisorSessions
  import opened SupervisorCallers
  import opened SupervisorStops
  import opened Options

  ghost predicate Sound(p: Process) {
    && StatesOk(p) && InitializationOk(p) && Accounted(p) && SessionsOk(p) && SessionsAwaited(p)
    && CallersOk(p) && IdsDistinct(p.commands)
  }

  lemma RunHeadAwaits(p: Process, hops: Hops)
    requires SessionsAwaited(p) && JobsFit(p) && p.jobs != [] && JobInRange(p, p.jobs[0])
    ensures SessionsAwaited(RunHead(p, hops))
  {
    assert p.jobs[0] in p.jobs;
  }

  lemma StepAwaits(p: Process, ev: Event)
    requires SessionsAwaited(p) && JobsFit(p) && Enabled(p, ev)
    ensures SessionsAwaited(Step(p, ev))
  {
    if ev.RunJob? { RunHeadAwaits(p, ev.hops); }
  }

  lemma StepSessions(p: Process, ev: Event)
    requires SessionsOk(p) && StatesOk(p) && InitializationOk(p) && Accounted(p) && SessionsAwaited(p) && Enabled(p, ev)
    ensures SessionsOk(Step(p, ev))
  {
    match ev
    case Command(m, env) => DispatchSessions(p, m, env);
    case RunJob(hops) => RunHeadSessions(p, hops);
    case SessionSettles(e, outcome) => SessionSettlesSessions(p, e, outcome);
    case CompletionSettles(e, _) => SameSessionsKeep(p, Step(p, ev), e);
    case StopIsRefused(e) => SameSessionsKeep(p, Step(p, ev), e);
    case AdapterInitialized(_, _) => SameSessionsKeep(p, Step(p, ev), 0);
  }

  lemma StepCallers(p: Process, ev: Event)
    requires CallersOk(p) && SessionsOk(p) && StatesOk(p) && InitializationOk(p) && Accounted(p) && IdsDistinct(p.commands)
    requires Enabled(p, ev)
    ensures CallersOk(Step(p, ev))
  {
    match ev
    case Command(m, env) => DispatchCallers(p, m, env);
    case RunJob(hops) => RunHeadCallers(p, hops);
    case AdapterInitialized(r, kept) => AdapterInitializedCallers(p, r, kept);
    case SessionSettles(_, _) => CallersCarry(p, Step(p, ev));
    case CompletionSettles(_, _) => CallersCarry(p, Step(p, ev));
    case StopIsRefused(_) => CallersCarry(p, Step(p, ev));
  }

  lemma StepIds(p: Process, ev: Event)
    requires IdsDistinct(p.commands) && Enabled(p, ev)
    ensures IdsDistinct(Step(p, ev).commands)
  {
    CommandsUnchanged(p, ev);
    if ev.Command? {
      forall i, k | 0 <= i < k < |p.commands| + 1 ensures (p.commands + [ev.message])[i].id != (p.commands + [ev.message])[k].id {
        if k == |p.commands| { assert p.commands[i] in p.commands; }
      }
    }
  }

  lemma StepKeeps(p: Process, ev: Event)
    requires Sound(p) && Enabled(p, ev)
    ensures Sound(Step(p, ev))
  {
    StepStates(p, ev);
    StepInitialization(p, ev);
    StepAccounted(p, ev);
    StepSessions(p, ev);
    StepAwaits(p, ev);
    StepCallers(p, ev);
    StepIds(p, ev);
  }

  // ---------------------------------------------------------------- whole runs

  ghost predicate Reaches(identity: Identity, adapter: int, events: seq<Event>, p: Process) {
    if events == [] then p == Born(identity, adapter)
    else
      var n := |events| - 1;
      exists before: Process :: Reaches(identity, adapter, events[..n], before) && Enabled(before, events[n]) && p == Step(before, events[n])
  }

  ghost predicate Reachable(p: Process) {
    exists identity, adapter, events :: Reaches(identity, adapter, events, p)
  }

  lemma BornIsSound(identity: Identity, adapter: int)
    ensures Sound(Born(identity, adapter))
  {
    var p := Born(identity, adapter);
    assert forall c: MessageId :: Replies(p, c) == 0;
  }

  lemma {:induction false} EveryRunKeeps(identity: Identity, adapter: int, events: seq<Event>, p: Process)
    requires Reaches(identity, adapter, events, p)
    ensures Sound(p)
  {
    if events == [] {
      BornIsSound(identity, adapter);
    } else {
      var n := |events| - 1;
      var before :| Reaches(identity, adapter, events[..n], before) && Enabled(before, events[n]) && p == Step(before, events[n]);
      EveryRunKeeps(identity, adapter, events[..n], before);
      StepKeeps(before, events[n]);
    }
  }

  lemma ReachableIsSound(p: Process)
    requires Reachable(p)
    ensures Sound(p)
  {
    var identity, adapter, events :| Reaches(identity, adapter, events, p);
    EveryRunKeeps(identity, adapter, events, p);
  }

  lemma ReachableSteps(p: Process, ev: Event)
    requires Reachable(p) && Enabled(p, ev)
    ensures Reachable(Step(p, ev))
  {
    var identity, adapter, events :| Reaches(identity, adapter, events, p);
    assert (events + [ev])[..|events|] == events;
    assert Reaches(identity, adapter, events + [ev], Step(p, ev));
  }

  /** The supervisor asks the adapter to start only when every execution it ever started has fulfilled
      its completion: there are never two live backends. */
  lemma NeverTwoBackends(p: Process, spec: InvocationSpec)
    requires Reachable(p) && StartRefusal(p, spec).None?
    ensures forall x | x in p.execs :: x.settled && x.adapterCompletion == Kept
  {
    ReachableIsSound(p);
    forall x | x in p.execs ensures x.settled {
      var e :| 0 <= e < |p.execs| && p.execs[e] == x;
    }
  }

  /** An invocation is active exactly while the supervisor is running or stopping. */
  lemma ActiveIffBusy(p: Process)
    requires Reachable(p)
    ensures p.active.Some? <==> p.state == Running || p.state == Stopping
    ensures p.active.Some? ==> p.active.value < |p.execs| && !p.execs[p.active.value].settled
    ensures forall e | 0 <= e < |p.execs| && !p.execs[e].settled :: p.active == Some(e)
  {
    ReachableIsSound(p);
  }

  /** A faulted supervisor stays faulted and starts nothing more. */
  lemma FaultedIsAbsorbing(p: Process, ev: Event)
    requires Reachable(p) && p.state == Faulted && Enabled(p, ev)
    ensures Step(p, ev).state == Faulted && |Step(p, ev).execs| == |p.execs|
  {
    ReachableIsSound(p);
    if ev.RunJob? { FaultedJobs(p, ev.hops); }
  }

  lemma FaultedJobs(p: Process, hops: Hops)
    requires ActiveOk(p) && ReactionsOk(p) && p.state == Faulted && p.jobs != [] && JobInRange(p, p.jobs[0])
    ensures RunHead(p, hops).state == Faulted && |RunHead(p, hops).execs| == |p.execs|
  {
    assert p.jobs[0] in p.jobs;
  }

  /** The adapter is never initialized twice at once nor again after success: when a reservation is
      made, every earlier adapter call has failed, and none is lost. */
  lemma InitializationIsSingleFlight(p: Process)
    requires Reachable(p)
    ensures forall r | 0 <= r < |p.reservations| - 1 :: p.reservations[r].adapter == Broken
    ensures forall r | 0 <= r < |p.reservations| :: p.reservations[r].result != Some(ReservationLost)
    ensures forall r | 0 <= r < |p.reservations| && p.reservations[r].result.Some? ::
              p.reservations[r].result.value == if p.reservations[r].adapter == Kept then Initialized else FAILED_INITIALIZATION
  {
    ReachableIsSound(p);
    ResolvedAsSettled(p);
  }

  lemma ResolvedAsSettled(p: Process)
    requires ReservationsOk(p)
    ensures forall r | 0 <= r < |p.reservations| - 1 :: p.reservations[r].adapter == Broken
    ensures forall r | 0 <= r < |p.reservations| && p.reservations[r].result.Some? ::
              p.reservations[r].result.value == if p.reservations[r].adapter == Kept then Initialized else FAILED_INITIALIZATION
  {}

  /** All callers joined to one reservation are told the same. */
  lemma JoinedCallersAgree(p: Process, r: nat, i: nat, k: nat, a: Emission, b: Emission)
    requires Reachable(p) && IsCaller(p, r, i) && IsCaller(p, r, k)
    requires a in p.emitted && IsReply(a, p.reservations[r].callers[i].causal)
    requires b in p.emitted && IsReply(b, p.reservations[r].callers[k].causal)
    ensures p.reservations[r].result.Some?
    ensures a.payload == InitializePayload(p.reservations[r].callers[i].actor, p.reservations[r].result.value)
    ensures b.payload == InitializePayload(p.reservations[r].callers[k].actor, p.reservations[r].result.value)
    ensures a.payload.HostReady? <==> b.payload.HostReady?
  {
    ReachableIsSound(p);
    assert SaysResult(p, a.causal, a.payload) && SaysResult(p, b.causal, b.payload);
  }

  /** Every start command, and every initialize command, has exactly one reply: sent, queued, or
      outstanding while the invocation is active or its reservation is held. */
  lemma OneReplyEach(p: Process, m: ServerMessage)
    requires Reachable(p) && m in p.commands && IsRequest(m.payload)
    ensures SentReplies(p.emitted, m.id) + QueuedReplies(p.jobs, m.id) + Outstanding(p, m.id) == 1
  {
    ReachableIsSound(p);
    assert Replies(p, m.id) == 1;
  }

  /** A session report comes before the reply to its start, and a result reply carries its session. */
  lemma ReportsPrecedeAndAgree(p: Process, i: nat, k: nat)
    requires Reachable(p) && i < |p.emitted| && k < |p.emitted| && p.emitted[i].causal == p.emitted[k].causal
    requires p.emitted[i].payload.SessionReport? && !p.emitted[k].payload.SessionReport?
    ensures i < k
    ensures p.emitted[k].payload.ResultReport? ==>
              && p.emitted[k].payload.result.session == Some(p.emitted[i].payload.session)
              && p.emitted[k].payload.result.invocation == p.emitted[i].payload.invocation
  {
    ReachableIsSound(p);
    ReportsFit(p, i, k);
  }

  lemma ReportsFit(p: Process, i: nat, k: nat)
    requires EmissionsFit(p) && ReportsFirst(p.emitted)
    requires i < |p.emitted| && k < |p.emitted| && p.emitted[i].causal == p.emitted[k].causal
    requires p.emitted[i].payload.SessionReport? && !p.emitted[k].payload.SessionReport?
    ensures i < k
    ensures p.emitted[k].payload.ResultReport? ==>
              && p.emitted[k].payload.result.session == Some(p.emitted[i].payload.session)
              && p.emitted[k].payload.result.invocation == p.emitted[i].payload.invocation
  {
    var report, reply := p.emitted[i], p.emitted[k];
    assert EmissionFits(p, report) && EmissionFits(p, reply);
    var x :| x in p.execs && x.causal == report.causal && x.session == Some(Some(report.payload.session))
             && x.spec.invocation == report.payload.invocation;
    if reply.payload.ResultReport? { assert ResultFits(x, reply.payload.result); }
  }

  // ---------------------------------------------------------------- stops

  /** `states` are the states a run passes through, one more than its events. */
  ghost predicate IsRun(identity: Identity, adapter: int, events: seq<Event>, states: seq<Process>) {
    && |states| == |events| + 1 && states[0] == Born(identity, adapter)
    && forall i | 0 <= i < |events| :: Enabled(states[i], events[i]) && states[i + 1] == Step(states[i], events[i])
  }

  lemma {:induction false} RunsReach(identity: Identity, adapter: int, events: seq<Event>, states: seq<Process>, i: nat)
    requires IsRun(identity, adapter, events, states) && i < |states|
    ensures Reaches(identity, adapter, events[..i], states[i])
  {
    if i > 0 {
      RunsReach(identity, adapter, events, states, i - 1);
      assert events[..i][..i - 1] == events[..i - 1];
      assert Reaches(identity, adapter, events[..i][..i - 1], states[i - 1]);
    }
  }

  /** The calls of `stop` in a run. */
  ghost function Stops(events: seq<Event>, states: seq<Process>): (stops: seq<Option<nat>>)
    requires |states| == |events| + 1 && forall i | 0 <= i < |events| :: Enabled(states[i], events[i])
    ensures |stops| == |events| && forall i | 0 <= i < |events| :: stops[i] == StopCalledBy(states[i], events[i])
  {
    seq(|events|, i requires 0 <= i < |events| => StopCalledBy(states[i], events[i]))
  }

  lemma RunsMove(identity: Identity, adapter: int, events: seq<Event>, states: seq<Process>)
    requires IsRun(identity, adapter, events, states)
    ensures Moving(states, Stops(events, states))
  {
    forall i | 0 <= i < |events| ensures Moves(states[i], states[i + 1], StopCalledBy(states[i], events[i])) {
      RunsReach(identity, adapter, events, states, i);
      EveryRunKeeps(identity, adapter, events[..i], states[i]);
      StepMoves(states[i], events[i]);
    }
  }

  /** Event `n` is a stop command for the invocation of `e`, which is the active execution by then,
      running and not yet settled. */
  ghost predicate AcceptedWhileActive(events: seq<Event>, states: seq<Process>, n: nat, e: nat)
    requires n < |events| && |states| == |events| + 1 && e < |states[|events|].execs|
  {
    var x := states[|events|].execs[e];
    && e < |states[n].execs| && states[n].active == Some(e) && states[n].state == Running && !states[n].execs[e].settled
    && states[n].execs[e].causal == x.causal
    && events[n].Command? && events[n].message.payload == StopInvocation(x.spec.invocation)
  }

  lemma StopWasAccepted(identity: Identity, adapter: int, events: seq<Event>, states: seq<Process>, n: nat, e: nat)
    requires IsRun(identity, adapter, events, states) && Moving(states, Stops(events, states)) && e < |states[|events|].execs|
    requires StoppedAt(Stops(events, states), n, e)
    ensures AcceptedWhileActive(events, states, n, e)
  {
    RunsReach(identity, adapter, events, states, n);
    EveryRunKeeps(identity, adapter, events[..n], states[n]);
    StopIsAccepted(states[n], events[n]);
    ExecsStay(states, Stops(events, states), n, |events|, e);
  }

  lemma StoppedAtMostOnce(p: Process, e: nat)
    requires Sound(p) && e < |p.execs|
    ensures p.execs[e].stopCalls <= 1
  {
    assert p.execs[e] in p.execs;
  }

  /** In every run an execution's `stop` is called at most once; it is called exactly by a stop command
      that names its invocation and arrives while this execution is the active one, running and not yet
      settled: an earlier or later use of the same invocation id stops nothing else. */
  lemma StoppedOnceWhileActive(identity: Identity, adapter: int, events: seq<Event>, states: seq<Process>, e: nat)
    requires IsRun(identity, adapter, events, states) && e < |states[|events|].execs|
    ensures states[|events|].execs[e].stopCalls <= 1
    ensures states[|events|].execs[e].stopCalls == 1 <==> exists n :: StoppedAt(Stops(events, states), n, e)
    ensures forall m, n | StoppedAt(Stops(events, states), m, e) && StoppedAt(Stops(events, states), n, e) :: m == n
    ensures forall n: nat | StoppedAt(Stops(events, states), n, e) :: AcceptedWhileActive(events, states, n, e)
  {
    RunsReach(identity, adapter, events, states, |events|);
    EveryRunKeeps(identity, adapter, events[..|events|], states[|events|]);
    StoppedAtMostOnce(states[|events|], e);
    RunsMove(identity, adapter, events, states);
    StopsAreCounted(states, Stops(events, states), e);
    forall n: nat | StoppedAt(Stops(events, states), n, e) ensures AcceptedWhileActive(events, states, n, e) {
      StopWasAccepted(identity, adapter, events, states, n, e);
    }
  }
}
