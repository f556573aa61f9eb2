/** Every start and every initialization gets exactly one reply. */
module SupervisorReplies {
  import opened HostMessages
  import opened Supervisor
  import opened SupervisorStates
  import opened Options

  predicate IsReplyTo(j: Job, c: MessageId) {
    j.Reply? && j.causal == c && !j.payload.SessionReport?
  }

  function QueuedReplies(jobs: seq<Job>, c: MessageId): nat {
    if jobs == [] then 0
    else QueuedReplies(jobs[..|jobs| - 1], c) + (if IsReplyTo(jobs[|jobs| - 1], c) then 1 else 0)
  }

  /** A reply is anything but a session report. */
  predicate IsReply(m: Emission, c: MessageId) {
    m.causal == c && !m.payload.SessionReport?
  }

  function SentReplies(emitted: seq<Emission>, c: MessageId): nat {
    if emitted == [] then 0
    else SentReplies(emitted[..|emitted| - 1], c) + (if IsReply(emitted[|emitted| - 1], c) then 1 else 0)
  }

  function Joined(callers: seq<Caller>, c: MessageId): nat {
    if callers == [] then 0
    else Joined(callers[..|callers| - 1], c) + (if callers[|callers| - 1].causal == c then 1 else 0)
  }

  /** 1 for a start that is still active, and for each caller of the held reservation. */
  function Outstanding(p: Process, c: MessageId): nat {
    (if p.active.Some? && p.active.value < |p.execs| && p.execs[p.active.value].causal == c then 1 else 0)
    + (if p.initialization.Some? && p.initialization.value < |p.reservations|
       then Joined(p.reservations[p.initialization.value].callers, c) else 0)
  }

  function Replies(p: Process, c: MessageId): nat {
    SentReplies(p.emitted, c) + QueuedReplies(p.jobs, c) + Outstanding(p, c)
  }

  lemma {:induction false} QueuedRepliesConcat(a: seq<Job>, b: seq<Job>, c: MessageId)
    ensures QueuedReplies(a + b, c) == QueuedReplies(a, c) + QueuedReplies(b, c)
  {
    if b == [] {
      assert a + b == a;
    } else {
      assert (a + b)[..|a + b| - 1] == a + b[..|b| - 1];
      QueuedRepliesConcat(a, b[..|b| - 1], c);
    }
  }

  lemma QueuedRepliesOne(a: seq<Job>, j: Job, c: MessageId)
    ensures QueuedReplies(a + [j], c) == QueuedReplies(a, c) + (if IsReplyTo(j, c) then 1 else 0)
  {
    assert (a + [j])[..|a|] == a;
  }

  lemma SentRepliesOne(a: seq<Emission>, m: Emission, c: MessageId)
    ensures SentReplies(a + [m], c) == SentReplies(a, c) + (if IsReply(m, c) then 1 else 0)
  {
    assert (a + [m])[..|a|] == a;
  }

  lemma JoinedOne(a: seq<Caller>, k: Caller, c: MessageId)
    ensures Joined(a + [k], c) == Joined(a, c) + (if k.causal == c then 1 else 0)
  {
    assert (a + [k])[..|a|] == a;
  }

  lemma {:induction false} NoRepliesQueued(jobs: seq<Job>, c: MessageId)
    requires forall j | j in jobs :: !j.Reply?
    ensures QueuedReplies(jobs, c) == 0
  {
    if jobs != [] {
      assert forall j | j in jobs[..|jobs| - 1] :: j in jobs;
      assert jobs[|jobs| - 1] in jobs;
      NoRepliesQueued(jobs[..|jobs| - 1], c);
    }
  }

  lemma {:induction false} RepliesToCount(callers: seq<Caller>, result: InitializeResult, hops: Hops, c: MessageId)
    ensures QueuedReplies(RepliesTo(callers, result, hops), c) == Joined(callers, c)
  {
    if callers != [] {
      var front := callers[..|callers| - 1];
      var jobs := RepliesTo(callers, result, hops);
      assert jobs[..|callers| - 1] == RepliesTo(front, result, hops);
      RepliesToCount(front, result, hops, c);
    }
  }

  /** Queueing jobs that are no replies changes no count. */
  lemma QueueKeeps(p: Process, jobs: seq<Job>, c: MessageId)
    requires forall j | j in jobs :: !j.Reply?
    ensures Replies(Queue(p, jobs), c) == Replies(p, c)
  {
    QueuedRepliesConcat(p.jobs, jobs, c);
    NoRepliesQueued(jobs, c);
  }

  // ---------------------------------------------------------------- each step's balance

  lemma FailExecBalance(p: Process, e: nat, code: FaultCode, c: MessageId)
    requires ActiveOk(p)
    ensures Replies(FailExec(p, e, code), c) == Replies(p, c)
  {
    var p' := FailExec(p, e, code);
    if p' != p {
      QueuedRepliesOne(p.jobs, p'.jobs[|p.jobs|], c);
    }
  }

  lemma ResolveSessionBalance(p: Process, e: nat, session: Option<SessionId>, c: MessageId)
    requires e < |p.execs|
    ensures Replies(ResolveSession(p, e, session), c) == Replies(p, c)
  {
    var x := p.execs[e];
    var noted := p.(execs := p.execs[e := x.(session := Some(session), awaiting := None)]);
    QueueKeeps(noted, ResolveSession(p, e, session).jobs[|p.jobs|..], c);
  }

  lemma OnSessionBalance(p: Process, e: nat, outcome: Outcome<Option<SessionId>>, c: MessageId)
    requires ActiveOk(p) && e < |p.execs|
    ensures Replies(OnSession(p, e, outcome), c) == Replies(p, c)
  {
    match outcome
    case Refused =>
      FailExecBalance(p, e, SessionObservationFailed, c);
      ResolveSessionBalance(FailExec(p, e, SessionObservationFailed), e, None, c);
    case Fulfilled(session) =>
      if p.execs[e].settled {
        ResolveSessionBalance(p, e, None, c);
      } else {
        var noted := if session.Some? && p.active == Some(e) then p.(sessionId := session) else p;
        assert Replies(noted, c) == Replies(p, c);
        ResolveSessionBalance(noted, e, session, c);
      }
  }

  lemma OnCompletionBalance(p: Process, e: nat, outcome: Outcome<Completion>, c: MessageId)
    requires ActiveOk(p) && e < |p.execs|
    ensures Replies(OnCompletion(p, e, outcome), c) == Replies(p, c)
  {
    var marked := p.(execs := p.execs[e := p.execs[e].(completionSettled := true)]);
    assert Replies(marked, c) == Replies(p, c);
    match outcome
    case Refused => FailExecBalance(marked, e, CompletionObservationFailed, c);
    case Fulfilled(completion) =>
      if marked.execs[e].session.Some? {
        QueueKeeps(marked, [CompletionResumes(e, marked.execs[e].session.value, completion)], c);
      }
  }

  lemma OnResumeBalance(p: Process, e: nat, discovered: Option<SessionId>, completion: Completion, hops: Hops, c: MessageId)
    requires ActiveOk(p) && e < |p.execs|
    ensures Replies(OnResume(p, e, discovered, completion, hops), c) == Replies(p, c)
  {
    var p' := OnResume(p, e, discovered, completion, hops);
    if !p.execs[e].settled {
      QueuedRepliesOne(p.jobs, p'.jobs[|p.jobs|], c);
    }
  }

  lemma OnInitializedBalance(p: Process, r: nat, kept: bool, hops: Hops, c: MessageId)
    requires r < |p.reservations| && p.initialization == Some(r)
    ensures Replies(OnInitialized(p, r, kept, hops), c) == Replies(p, c)
  {
    var result := if kept then Initialized else FAILED_INITIALIZATION;
    var callers := p.reservations[r].callers;
    QueuedRepliesConcat(p.jobs, RepliesTo(callers, result, hops), c);
    RepliesToCount(callers, result, hops, c);
  }

  lemma AnswerBalance(p: Process, caller: Caller, result: InitializeResult, hops: Hops, c: MessageId)
    ensures Replies(Answer(p, caller, result, hops), c) == Replies(p, c) + (if c == caller.causal then 1 else 0)
  {
    QueuedRepliesOne(p.jobs, Reply(caller.causal, HopsAt(hops, 0), InitializePayload(caller.actor, result)), c);
  }

  lemma ReserveBalance(p: Process, caller: Caller, launch: LaunchSpec, env: Env, c: MessageId)
    requires p.initialization.None?
    ensures Replies(Reserve(p, caller, launch, env), c) == Replies(p, c) + (if c == caller.causal then 1 else 0)
  {
    var r := |p.reservations|;
    JoinedOne([], caller, c);
    assert [] + [caller] == [caller];
    if env.throws {
      var reserved := p.(reservations := p.reservations + [Reservation(launch, [caller], Broken, None)], initialization := Some(r));
      OnInitializedBalance(reserved, r, false, env.hops, c);
    }
  }

  lemma SupervisorInitializeBalance(p: Process, caller: Caller, launch: LaunchSpec, env: Env, c: MessageId)
    requires ReservationsOk(p) && ActiveOk(p)
    ensures Replies(SupervisorInitialize(p, caller, launch, env), c) == Replies(p, c) + (if c == caller.causal then 1 else 0)
  {
    forall result ensures Replies(Answer(p, caller, result, env.hops), c) == Replies(p, c) + (if c == caller.causal then 1 else 0) {
      AnswerBalance(p, caller, result, env.hops, c);
    }
    if p.launchSpec.None? {
      if p.initialization.None? { ReserveBalance(p, caller, launch, env, c); }
      else { JoinedOne(p.reservations[p.initialization.value].callers, caller, c); }
    }
  }

  lemma EmitBalance(p: Process, causal: MessageId, payload: HostPayload, c: MessageId)
    ensures Replies(Emit(p, causal, payload), c) == Replies(p, c) + (if c == causal && !payload.SessionReport? then 1 else 0)
  {
    SentRepliesOne(p.emitted, Emission(causal, payload), c);
  }

  lemma DispatchStartBalance(p: Process, causal: MessageId, spec: InvocationSpec, env: Env, c: MessageId)
    requires ActiveOk(p)
    ensures Replies(DispatchStart(p, causal, spec, env), c) == Replies(p, c) + (if c == causal then 1 else 0)
  {
    var p' := DispatchStart(p, causal, spec, env);
    if p'.emitted != p.emitted {
      EmitBalance(p, causal, p'.emitted[|p.emitted|].payload, c);
    }
  }

  lemma DispatchStopBalance(p: Process, causal: MessageId, target: InvocationId, env: Env, c: MessageId)
    requires ActiveOk(p) && c != causal
    ensures Replies(DispatchStop(p, causal, target, env), c) == Replies(p, c)
  {
    match StopRefusal(p, target)
    case Some(code) => EmitBalance(p, causal, HostFault(Some(target), code), c);
    case None =>
      var e := p.active.value;
      var x := p.execs[e];
      if !x.completionSettled && p.state != Stopping {
        var asked := p.(state := Stopping, execs := p.execs[e := x.(stopCalls := x.stopCalls + 1)]);
        FailExecBalance(asked, e, AdapterStopFailed, c);
      }
  }

  predicate IsRequest(payload: ServerPayload) {
    payload.InitializeActorHost? || payload.StartInvocation?
  }

  /** A command changes the count of its own id only: by one if it asks for a reply. */
  lemma DispatchBalance(p: Process, m: ServerMessage, env: Env, c: MessageId)
    requires ActiveOk(p) && ReservationsOk(p)
    ensures c != m.id ==> Replies(Dispatch(p, m, env), c) == Replies(p, c)
    ensures c == m.id && IsRequest(m.payload) ==> Replies(Dispatch(p, m, env), c) == Replies(p, c) + 1
  {
    var seen := p.(commands := p.commands + [m]);
    assert Replies(seen, c) == Replies(p, c);
    match m.payload
    case InitializeActorHost(launch) =>
      if launch.project != p.identity.project || launch.actor != p.identity.actor {
        EmitBalance(seen, m.id, HostFault(None, IdentityMismatch), c);
      } else {
        SupervisorInitializeBalance(seen, Caller(m.id, launch.actor), launch, env, c);
      }
    case StartInvocation(spec) => DispatchStartBalance(seen, m.id, spec, env, c);
    case StopInvocation(target) => if c != m.id { DispatchStopBalance(seen, m.id, target, env, c); }
    case _ =>
  }

  lemma HeadRemoved(p: Process, rest: Process, c: MessageId)
    requires p.jobs != [] && rest == p.(jobs := p.jobs[1..])
    ensures Replies(p, c) == Replies(rest, c) + (if IsReplyTo(p.jobs[0], c) then 1 else 0)
  {
    assert p.jobs == [p.jobs[0]] + rest.jobs && [] + [p.jobs[0]] == [p.jobs[0]];
    QueuedRepliesConcat([p.jobs[0]], rest.jobs, c);
    QueuedRepliesOne([], p.jobs[0], c);
  }

  /** Running a job moves a reply from the queue to the wire at most; none is made or lost. */
  lemma RunHeadBalance(p: Process, hops: Hops, c: MessageId)
    requires ActiveOk(p) && ReactionsOk(p) && p.jobs != [] && JobInRange(p, p.jobs[0])
    ensures Replies(RunHead(p, hops), c) == Replies(p, c)
  {
    var rest := p.(jobs := p.jobs[1..]);
    HeadRemoved(p, rest, c);
    match p.jobs[0]
    case SessionReaction(e, outcome) => OnSessionBalance(rest, e, outcome, c);
    case CompletionReaction(e, outcome) => OnCompletionBalance(rest, e, outcome, c);
    case CompletionResumes(e, discovered, completion) => OnResumeBalance(rest, e, discovered, completion, hops, c);
    case StopRefused(e) => FailExecBalance(rest, e, AdapterStopFailed, c);
    case Report(e, s) => EmitBalance(rest, p.execs[e].causal, SessionReport(p.execs[e].spec.invocation, s), c);
    case InitializationReaction(r, kept) =>
      assert p.jobs[0] in p.jobs;
      OnInitializedBalance(rest, r, kept, hops, c);
    case Reply(causal, left, payload) => ReplyBalance(rest, causal, left, payload, c);
  }

  lemma ReplyBalance(rest: Process, causal: MessageId, left: nat, payload: HostPayload, c: MessageId)
    ensures left > 0 ==> Replies(Queue(rest, [Reply(causal, left - 1, payload)]), c)
                         == Replies(rest, c) + (if c == causal && !payload.SessionReport? then 1 else 0)
    ensures Replies(Emit(rest, causal, payload), c) == Replies(rest, c) + (if c == causal && !payload.SessionReport? then 1 else 0)
  {
    if left > 0 { QueuedRepliesOne(rest.jobs, Reply(causal, left - 1, payload), c); }
    EmitBalance(rest, causal, payload, c);
  }

  // ---------------------------------------------------------------- whole steps

  predicate KnownId(commands: seq<ServerMessage>, c: MessageId) {
    exists m | m in commands :: m.id == c
  }

  /** One reply is due, sent or outstanding for every request, and none for an unknown id. */
  ghost predicate Accounted(p: Process) {
    && (forall m | m in p.commands && IsRequest(m.payload) :: Replies(p, m.id) == 1)
    && (forall c: MessageId :: !KnownId(p.commands, c) ==> Replies(p, c) == 0)
  }

  /** A settlement only queues its reaction. */
  lemma ReactionBalance(p: Process, p': Process, j: Job, c: MessageId)
    requires !j.Reply? && p'.jobs == p.jobs + [j] && p'.emitted == p.emitted
    requires p'.active == p.active && p'.initialization == p.initialization
    requires |p'.execs| == |p.execs| && forall e | 0 <= e < |p.execs| :: p'.execs[e].causal == p.execs[e].causal
    requires |p'.reservations| == |p.reservations| && forall r | 0 <= r < |p.reservations| :: p'.reservations[r].callers == p.reservations[r].callers
    ensures Replies(p', c) == Replies(p, c)
  {
    QueuedRepliesOne(p.jobs, j, c);
  }

  lemma StepBalance(p: Process, ev: Event, c: MessageId)
    requires StatesOk(p) && InitializationOk(p) && Enabled(p, ev) && !ev.Command?
    ensures Replies(Step(p, ev), c) == Replies(p, c)
  {
    if ev.RunJob? {
      RunHeadBalance(p, ev.hops, c);
    } else {
      SettlementBalance(p, ev, c);
    }
  }

  lemma SettlementBalance(p: Process, ev: Event, c: MessageId)
    requires Enabled(p, ev) && !ev.Command? && !ev.RunJob?
    ensures Replies(Step(p, ev), c) == Replies(p, c)
  {
    match ev
    case SessionSettles(e, outcome) => ReactionBalance(p, Step(p, ev), SessionReaction(e, outcome), c);
    case CompletionSettles(e, outcome) => ReactionBalance(p, Step(p, ev), CompletionReaction(e, outcome), c);
    case StopIsRefused(e) => ReactionBalance(p, Step(p, ev), StopRefused(e), c);
    case AdapterInitialized(r, kept) => ReactionBalance(p, Step(p, ev), InitializationReaction(r, kept), c);
    case _ =>
  }

  lemma StepAccounted(p: Process, ev: Event)
    requires StatesOk(p) && InitializationOk(p) && Accounted(p) && Enabled(p, ev)
    ensures Accounted(Step(p, ev))
  {
    var p' := Step(p, ev);
    if ev.Command? {
      CommandAccounted(p, ev.message, ev.env);
    } else {
      CommandsUnchanged(p, ev);
      forall c: MessageId ensures Replies(p', c) == Replies(p, c) { StepBalance(p, ev, c); }
    }
  }

  lemma CommandsUnchanged(p: Process, ev: Event)
    requires Enabled(p, ev)
    ensures Step(p, ev).commands == if ev.Command? then p.commands + [ev.message] else p.commands
  {}

  lemma CommandAccounted(p: Process, m: ServerMessage, env: Env)
    requires ActiveOk(p) && ReservationsOk(p) && Accounted(p) && Enabled(p, Command(m, env))
    ensures Accounted(Dispatch(p, m, env))
  {
    var p' := Dispatch(p, m, env);
    CommandsUnchanged(p, Command(m, env));
    assert !KnownId(p.commands, m.id);
    forall c: MessageId ensures c != m.id ==> Replies(p', c) == Replies(p, c) { DispatchBalance(p, m, env, c); }
    DispatchBalance(p, m, env, m.id);
    forall k | k in p'.commands && IsRequest(k.payload) ensures Replies(p', k.id) == 1 {
      if k in p.commands { assert k.id != m.id; }
    }
    forall c: MessageId | !KnownId(p'.commands, c) ensures Replies(p', c) == 0 {
      assert m in p'.commands;
      assert !KnownId(p.commands, c);
    }
  }
}
