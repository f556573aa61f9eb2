/** A session report precedes the reply to its start, and the result agrees with it. */
module SupervisorSessions {
  import opened HostMessages
  import opened Supervisor
  import opened SupervisorStates
  import opened SupervisorReplies
  import opened Options

  /** A result for invocation `x` repeats its identity and its discovered session. */
  predicate ResultFits(x: Exec, r: InvocationResult) {
    && r.project == x.spec.project && r.run == x.spec.run && r.actor == x.spec.actor && r.invocation == x.spec.invocation
    && x.session.Some? && (x.session.value.Some? ==> r.session == x.session.value)
  }

  ghost predicate PayloadFits(p: Process, causal: MessageId, payload: HostPayload) {
    payload.ResultReport? ==> forall x | x in p.execs && x.causal == causal :: ResultFits(x, payload.result)
  }

  ghost predicate JobFits(p: Process, j: Job) {
    match j
    case SessionReaction(e, _) => e < |p.execs| && p.execs[e].session.None? && p.execs[e].adapterSession != Open
    case Report(e, s) => e < |p.execs| && p.execs[e].session == Some(Some(s))
    case CompletionResumes(e, d, _) => e < |p.execs| && p.execs[e].session == Some(d)
    case Reply(causal, _, payload) => PayloadFits(p, causal, payload) && !payload.SessionReport?
    case _ => true
  }

  ghost predicate JobsFit(p: Process) {
    && (forall j | j in p.jobs :: JobFits(p, j))
    && (forall i, k | 0 <= i < k < |p.jobs| && p.jobs[i].SessionReaction? && p.jobs[k].SessionReaction? ::
          p.jobs[i].exec != p.jobs[k].exec)
  }

  ghost predicate EmissionFits(p: Process, m: Emission) {
    && PayloadFits(p, m.causal, m.payload)
    && (m.payload.SessionReport? ==>
          exists x | x in p.execs :: x.causal == m.causal && x.session == Some(Some(m.payload.session))
                                     && x.spec.invocation == m.payload.invocation)
  }

  ghost predicate EmissionsFit(p: Process) {
    forall m | m in p.emitted :: EmissionFits(p, m)
  }

  /** A queued report is of an invocation still active, or sits before its reply. */
  ghost predicate ReportInTime(p: Process, i: nat)
    requires i < |p.jobs|
  {
    p.jobs[i].Report? ==>
      && p.jobs[i].exec < |p.execs|
      && (p.execs[p.jobs[i].exec].settled ==>
            exists k | i < k < |p.jobs| :: IsReplyTo(p.jobs[k], p.execs[p.jobs[i].exec].causal))
  }

  ghost predicate ReportsInTime(p: Process) {
    forall i | 0 <= i < |p.jobs| :: ReportInTime(p, i)
  }

  /** Nothing but reports precedes a report to the same start. */
  ghost predicate ReportsFirst(emitted: seq<Emission>) {
    forall i, k | 0 <= i < k < |emitted| && emitted[k].payload.SessionReport? && emitted[i].causal == emitted[k].causal ::
      emitted[i].payload.SessionReport?
  }

  ghost predicate StartedBy(p: Process, x: Exec) {
    exists m | m in p.commands :: m.id == x.causal && m.payload == StartInvocation(x.spec)
  }

  /** Every invocation was started by its own command. */
  ghost predicate OriginsOk(p: Process) {
    && (forall x | x in p.execs :: StartedBy(p, x))
    && (forall e1, e2 | 0 <= e1 < e2 < |p.execs| :: p.execs[e1].causal != p.execs[e2].causal)
  }

  ghost predicate SessionsOk(p: Process) {
    JobsFit(p) && EmissionsFit(p) && ReportsInTime(p) && ReportsFirst(p.emitted) && OriginsOk(p)
  }

  // ---------------------------------------------------------------- carrying facts along

  /** Invocations keep their identity and a resolved session; none is added. */
  ghost predicate Carries(p: Process, p': Process) {
    && |p'.execs| == |p.execs|
    && (forall e | 0 <= e < |p.execs| ::
          && p'.execs[e].causal == p.execs[e].causal && p'.execs[e].spec == p.execs[e].spec
          && (p.execs[e].session.Some? ==> p'.execs[e].session == p.execs[e].session)
          && (p.execs[e].adapterSession != Open ==> p'.execs[e].adapterSession != Open))
  }

  lemma PayloadCarries(p: Process, p': Process, causal: MessageId, payload: HostPayload)
    requires Carries(p, p') && PayloadFits(p, causal, payload)
    ensures PayloadFits(p', causal, payload)
  {
    forall x' | x' in p'.execs && x'.causal == causal && payload.ResultReport? ensures ResultFits(x', payload.result) {
      var e :| 0 <= e < |p'.execs| && p'.execs[e] == x';
      assert p.execs[e] in p.execs;
    }
  }

  lemma EmissionsCarry(p: Process, p': Process)
    requires Carries(p, p') && EmissionsFit(p) && p'.emitted == p.emitted
    ensures EmissionsFit(p')
  {
    forall m | m in p'.emitted ensures EmissionFits(p', m) {
      assert EmissionFits(p, m);
      PayloadCarries(p, p', m.causal, m.payload);
      if m.payload.SessionReport? {
        var x :| x in p.execs && x.causal == m.causal && x.session == Some(Some(m.payload.session)) && x.spec.invocation == m.payload.invocation;
        var e :| 0 <= e < |p.execs| && p.execs[e] == x;
        assert p'.execs[e] in p'.execs;
      }
    }
  }

  lemma OriginsCarry(p: Process, p': Process)
    requires Carries(p, p') && OriginsOk(p) && p'.commands == p.commands
    ensures OriginsOk(p')
  {
    forall x' | x' in p'.execs ensures StartedBy(p', x') {
      var e :| 0 <= e < |p'.execs| && p'.execs[e] == x';
      assert StartedBy(p, p.execs[e]);
    }
  }

  /** A job still fits unless it is the reaction of the one session that resolves. */
  lemma JobCarries(p: Process, p': Process, j: Job)
    requires Carries(p, p') && JobFits(p, j)
    requires j.SessionReaction? ==> j.exec < |p'.execs| && p'.execs[j.exec].session == p.execs[j.exec].session
    ensures JobFits(p', j)
  {
    if j.Reply? { PayloadCarries(p, p', j.causal, j.payload); }
  }

  /** New jobs at the back keep earlier reports in time, if whatever settled is replied to there. */
  lemma ReportsCarry(p: Process, p': Process)
    requires Carries(p, p') && ReportsInTime(p) && p.jobs <= p'.jobs
    requires forall e | 0 <= e < |p.execs| && p'.execs[e].settled && !p.execs[e].settled ::
               exists k | |p.jobs| <= k < |p'.jobs| :: IsReplyTo(p'.jobs[k], p.execs[e].causal)
    requires forall i | |p.jobs| <= i < |p'.jobs| && p'.jobs[i].Report? :: p'.jobs[i].exec < |p'.execs| && !p'.execs[p'.jobs[i].exec].settled
    ensures ReportsInTime(p')
  {
    forall i | 0 <= i < |p'.jobs| ensures ReportInTime(p', i) {
      if i < |p.jobs| {
        assert ReportInTime(p, i) && p'.jobs[i] == p.jobs[i];
        if p.jobs[i].Report? && p.execs[p.jobs[i].exec].settled {
          var k :| i < k < |p.jobs| && IsReplyTo(p.jobs[k], p.execs[p.jobs[i].exec].causal);
          assert IsReplyTo(p'.jobs[k], p'.execs[p'.jobs[i].exec].causal);
        }
      }
    }
  }

  lemma JobsCarry(p: Process, p': Process, e: nat)
    requires Carries(p, p') && JobsFit(p) && p.jobs <= p'.jobs
    requires forall i | 0 <= i < |p.execs| && i != e :: p'.execs[i].session == p.execs[i].session
    requires (e < |p.execs| && p'.execs[e].session != p.execs[e].session) ==>
               forall j | j in p.jobs :: !(j.SessionReaction? && j.exec == e)
    requires forall i | |p.jobs| <= i < |p'.jobs| :: !p'.jobs[i].SessionReaction? && JobFits(p', p'.jobs[i])
    ensures JobsFit(p')
  {
    forall j | j in p'.jobs ensures JobFits(p', j) {
      var i :| 0 <= i < |p'.jobs| && p'.jobs[i] == j;
      if i < |p.jobs| {
        assert p.jobs[i] in p.jobs;
        JobCarries(p, p', j);
      }
    }
  }

  // ---------------------------------------------------------------- each step

  lemma FailExecSessions(p: Process, e: nat, code: FaultCode)
    requires SessionsOk(p)
    ensures SessionsOk(FailExec(p, e, code)) && Carries(p, FailExec(p, e, code))
  {
    var p' := FailExec(p, e, code);
    if p' != p {
      assert IsReplyTo(p'.jobs[|p.jobs|], p.execs[e].causal);
      JobsCarry(p, p', e);
      ReportsCarry(p, p');
      EmissionsCarry(p, p');
      OriginsCarry(p, p');
    }
  }

  lemma ResolveSessionSessions(p: Process, e: nat, session: Option<SessionId>)
    requires SessionsOk(p) && e < |p.execs| && p.execs[e].session.None?
    requires session.Some? ==> !p.execs[e].settled
    requires forall j | j in p.jobs :: !(j.SessionReaction? && j.exec == e)
    ensures SessionsOk(ResolveSession(p, e, session))
  {
    var p' := ResolveSession(p, e, session);
    assert Carries(p, p');
    JobsCarry(p, p', e);
    ReportsCarry(p, p');
    EmissionsCarry(p, p');
    OriginsCarry(p, p');
  }

  lemma OnSessionSessions(p: Process, e: nat, outcome: Outcome<Option<SessionId>>)
    requires SessionsOk(p) && e < |p.execs| && p.execs[e].session.None?
    requires forall j | j in p.jobs :: !(j.SessionReaction? && j.exec == e)
    ensures SessionsOk(OnSession(p, e, outcome))
  {
    match outcome
    case Refused =>
      var failed := FailExec(p, e, SessionObservationFailed);
      FailExecSessions(p, e, SessionObservationFailed);
      forall j | j in failed.jobs ensures !(j.SessionReaction? && j.exec == e) {
        if j !in p.jobs { assert j.Reply?; }
      }
      ResolveSessionSessions(failed, e, None);
    case Fulfilled(session) =>
      ResolveSessionSessions(p, e, None);
      if !p.execs[e].settled {
        var noted := if session.Some? && p.active == Some(e) then p.(sessionId := session) else p;
        SameSessionsKeep(p, noted, e);
        ResolveSessionSessions(noted, e, session);
      }
  }

  lemma OnCompletionSessions(p: Process, e: nat, outcome: Outcome<Completion>)
    requires SessionsOk(p) && e < |p.execs|
    ensures SessionsOk(OnCompletion(p, e, outcome))
  {
    var p' := OnCompletion(p, e, outcome);
    match outcome
    case Refused =>
      var marked := p.(execs := p.execs[e := p.execs[e].(completionSettled := true)]);
      SameSessionsKeep(p, marked, e);
      FailExecSessions(marked, e, CompletionObservationFailed);
    case Fulfilled(c) => SameSessionsKeep(p, p', e);
  }

  /** Nothing settles, no session changes, and any new job resumes with the known session. */
  lemma SameSessionsKeep(p: Process, p': Process, e: nat)
    requires SessionsOk(p) && Carries(p, p') && p'.emitted == p.emitted && p'.commands == p.commands
    requires forall i | 0 <= i < |p.execs| :: p'.execs[i].session == p.execs[i].session && p'.execs[i].settled == p.execs[i].settled
    requires p.jobs <= p'.jobs
    requires forall i | |p.jobs| <= i < |p'.jobs| ::
               !p'.jobs[i].SessionReaction? && !p'.jobs[i].Report? && JobFits(p', p'.jobs[i])
    ensures SessionsOk(p')
  {
    JobsCarry(p, p', e);
    ReportsCarry(p, p');
    EmissionsCarry(p, p');
    OriginsCarry(p, p');
  }

  lemma OnResumeSessions(p: Process, e: nat, discovered: Option<SessionId>, c: Completion, hops: Hops)
    requires SessionsOk(p) && ActiveOk(p) && e < |p.execs| && p.execs[e].session == Some(discovered)
    ensures SessionsOk(OnResume(p, e, discovered, c, hops))
  {
    var p' := OnResume(p, e, discovered, c, hops);
    if !p.execs[e].settled {
      var reply := p'.jobs[|p.jobs|];
      assert IsReplyTo(reply, p.execs[e].causal);
      assert JobFits(p', reply) by {
        forall x | x in p'.execs && x.causal == reply.causal ensures ResultFits(x, reply.payload.result) {
          var i :| 0 <= i < |p'.execs| && p'.execs[i] == x;
          assert p.execs[i].causal == p.execs[e].causal;
          assert i == e;
        }
      }
      JobsCarry(p, p', e);
      ReportsCarry(p, p');
      EmissionsCarry(p, p');
      OriginsCarry(p, p');
    }
  }

  lemma {:induction false} QueuedIsCounted(jobs: seq<Job>, k: nat, c: MessageId)
    requires k < |jobs| && IsReplyTo(jobs[k], c)
    ensures QueuedReplies(jobs, c) >= 1
  {
    if k < |jobs| - 1 { QueuedIsCounted(jobs[..|jobs| - 1], k, c); }
  }

  lemma {:induction false} SentIsCounted(emitted: seq<Emission>, k: nat, c: MessageId)
    requires k < |emitted| && IsReply(emitted[k], c)
    ensures SentReplies(emitted, c) >= 1
  {
    if k < |emitted| - 1 { SentIsCounted(emitted[..|emitted| - 1], k, c); }
  }

  /** An unknown id has no reply anywhere. */
  lemma UnknownHasNoReply(p: Process, c: MessageId)
    requires Accounted(p) && !KnownId(p.commands, c)
    ensures forall j | j in p.jobs :: !IsReplyTo(j, c)
    ensures forall m | m in p.emitted :: !IsReply(m, c)
  {
    assert Replies(p, c) == 0;
    forall j | j in p.jobs ensures !IsReplyTo(j, c) {
      var k :| 0 <= k < |p.jobs| && p.jobs[k] == j;
      if IsReplyTo(j, c) { QueuedIsCounted(p.jobs, k, c); }
    }
    forall m | m in p.emitted ensures !IsReply(m, c) {
      var k :| 0 <= k < |p.emitted| && p.emitted[k] == m;
      if IsReply(m, c) { SentIsCounted(p.emitted, k, c); }
    }
  }

  /** When a report's turn comes, its start has not been replied to. */
  lemma ReportedBeforeReply(p: Process)
    requires SessionsOk(p) && ActiveOk(p) && Accounted(p) && p.jobs != [] && p.jobs[0].Report?
    ensures p.jobs[0].exec < |p.execs| && forall m | m in p.emitted :: !IsReply(m, p.execs[p.jobs[0].exec].causal)
  {
    var e := p.jobs[0].exec;
    assert ReportInTime(p, 0);
    var c := p.execs[e].causal;
    assert StartedBy(p, p.execs[e]) && Replies(p, c) == 1;
    if p.execs[e].settled {
      var k :| 0 < k < |p.jobs| && IsReplyTo(p.jobs[k], c);
      QueuedIsCounted(p.jobs, k, c);
    }
    forall m | m in p.emitted ensures !IsReply(m, c) {
      var k :| 0 <= k < |p.emitted| && p.emitted[k] == m;
      if IsReply(m, c) { SentIsCounted(p.emitted, k, c); }
    }
  }

  lemma RestSessions(p: Process, rest: Process)
    requires SessionsOk(p) && p.jobs != [] && rest == p.(jobs := p.jobs[1..])
    ensures SessionsOk(rest) && JobFits(p, p.jobs[0])
    ensures p.jobs[0].SessionReaction? ==> forall j | j in rest.jobs :: !(j.SessionReaction? && j.exec == p.jobs[0].exec)
  {
    assert p.jobs[0] in p.jobs;
    assert Carries(p, rest);
    forall j | j in rest.jobs
      ensures JobFits(rest, j) && !(p.jobs[0].SessionReaction? && j.SessionReaction? && j.exec == p.jobs[0].exec)
    {
      var k :| 0 <= k < |rest.jobs| && rest.jobs[k] == j;
      assert p.jobs[k + 1] == j && j in p.jobs;
      JobCarries(p, rest, j);
    }
    EmissionsCarry(p, rest);
    OriginsCarry(p, rest);
    forall i | 0 <= i < |rest.jobs| ensures ReportInTime(rest, i) {
      assert ReportInTime(p, i + 1);
      if rest.jobs[i].Report? && rest.execs[rest.jobs[i].exec].settled {
        var k :| i + 1 < k < |p.jobs| && IsReplyTo(p.jobs[k], p.execs[p.jobs[i + 1].exec].causal);
        assert IsReplyTo(rest.jobs[k - 1], rest.execs[rest.jobs[i].exec].causal);
      }
    }
  }

  lemma EmitSessions(p: Process, causal: MessageId, payload: HostPayload)
    requires SessionsOk(p) && EmissionFits(p, Emission(causal, payload))
    requires payload.SessionReport? ==> forall m | m in p.emitted :: !IsReply(m, causal)
    ensures SessionsOk(Emit(p, causal, payload))
  {
    var p' := Emit(p, causal, payload);
    assert Carries(p, p');
    forall m | m in p'.emitted ensures EmissionFits(p', m) {
      assert EmissionFits(p, m);
    }
    JobsCarry(p, p', 0);
    ReportsCarry(p, p');
    OriginsCarry(p, p');
    forall i, k | 0 <= i < k < |p'.emitted| && p'.emitted[k].payload.SessionReport? && p'.emitted[i].causal == p'.emitted[k].causal
      ensures p'.emitted[i].payload.SessionReport?
    {
      if k == |p.emitted| { assert p.emitted[i] in p.emitted; }
    }
  }

  lemma OtherRepliesKeep(p: Process, p': Process)
    requires SessionsOk(p) && p'.execs == p.execs && p'.emitted == p.emitted && p'.commands == p.commands && p.jobs <= p'.jobs
    requires forall i | |p.jobs| <= i < |p'.jobs| :: p'.jobs[i].Reply? && JobFits(p, p'.jobs[i])
    ensures SessionsOk(p')
  {
    assert Carries(p, p');
    forall i | |p.jobs| <= i < |p'.jobs| ensures JobFits(p', p'.jobs[i]) {
      JobCarries(p, p', p'.jobs[i]);
    }
    SameSessionsKeep(p, p', 0);
  }

  lemma OnInitializedSessions(p: Process, r: nat, kept: bool, hops: Hops)
    requires SessionsOk(p) && r < |p.reservations|
    ensures SessionsOk(OnInitialized(p, r, kept, hops))
  {
    OtherRepliesKeep(p, OnInitialized(p, r, kept, hops));
  }

  lemma RunHeadSessions(p: Process, hops: Hops)
    requires SessionsOk(p) && StatesOk(p) && Accounted(p) && p.jobs != [] && JobInRange(p, p.jobs[0])
    ensures SessionsOk(RunHead(p, hops))
  {
    var rest := p.(jobs := p.jobs[1..]);
    RestSessions(p, rest);
    match p.jobs[0]
    case SessionReaction(e, outcome) => OnSessionSessions(rest, e, outcome);
    case CompletionReaction(e, outcome) => OnCompletionSessions(rest, e, outcome);
    case CompletionResumes(e, discovered, c) => OnResumeSessions(rest, e, discovered, c, hops);
    case StopRefused(e) => FailExecSessions(rest, e, AdapterStopFailed);
    case Report(e, s) => ReportSessions(p, rest);
    case InitializationReaction(r, kept) => OnInitializedSessions(rest, r, kept, hops);
    case Reply(causal, left, payload) => ReplySessions(rest, causal, left, payload);
  }

  lemma ReportSessions(p: Process, rest: Process)
    requires SessionsOk(p) && ActiveOk(p) && Accounted(p) && p.jobs != [] && p.jobs[0].Report?
    requires rest == p.(jobs := p.jobs[1..]) && SessionsOk(rest) && JobFits(p, p.jobs[0])
    ensures SessionsOk(Emit(rest, p.execs[p.jobs[0].exec].causal, SessionReport(p.execs[p.jobs[0].exec].spec.invocation, p.jobs[0].discoveredId)))
  {
    var x := p.execs[p.jobs[0].exec];
    ReportedBeforeReply(p);
    assert x in rest.execs;
    EmitSessions(rest, x.causal, SessionReport(x.spec.invocation, p.jobs[0].discoveredId));
  }

  lemma ReplySessions(rest: Process, causal: MessageId, left: nat, payload: HostPayload)
    requires SessionsOk(rest) && PayloadFits(rest, causal, payload) && !payload.SessionReport?
    ensures SessionsOk(Emit(rest, causal, payload))
    ensures left > 0 ==> SessionsOk(Queue(rest, [Reply(causal, left - 1, payload)]))
  {
    EmitSessions(rest, causal, payload);
    if left > 0 { OtherRepliesKeep(rest, Queue(rest, [Reply(causal, left - 1, payload)])); }
  }

  // ---------------------------------------------------------------- commands

  lemma SeenSessions(p: Process, m: ServerMessage)
    requires SessionsOk(p)
    ensures SessionsOk(p.(commands := p.commands + [m]))
  {
    var seen := p.(commands := p.commands + [m]);
    forall x | x in seen.execs ensures StartedBy(seen, x) {
      assert StartedBy(p, x);
      var k :| k in p.commands && k.id == x.causal && k.payload == StartInvocation(x.spec);
      assert k in seen.commands;
    }
    assert Carries(p, seen);
    JobsCarry(p, seen, 0);
    ReportsCarry(p, seen);
    EmissionsCarry(p, seen);
  }

  /** No invocation and no reply belongs to a new command yet. */
  ghost predicate Unused(p: Process, c: MessageId) {
    && (forall x | x in p.execs :: x.causal != c)
    && (forall j | j in p.jobs :: !IsReplyTo(j, c))
    && (forall m | m in p.emitted :: !IsReply(m, c))
  }

  lemma NewIdIsUnused(p: Process, c: MessageId)
    requires OriginsOk(p) && Accounted(p) && !KnownId(p.commands, c)
    ensures Unused(p, c)
  {
    UnknownHasNoReply(p, c);
    forall x | x in p.execs ensures x.causal != c { assert StartedBy(p, x); }
  }

  lemma StartedSessions(p: Process, x: Exec)
    requires SessionsOk(p) && Unused(p, x.causal) && StartedBy(p, x) && x.session.None?
    ensures SessionsOk(p.(execs := p.execs + [x], active := Some(|p.execs|), state := Running))
  {
    var p' := p.(execs := p.execs + [x], active := Some(|p.execs|), state := Running);
    forall j | j in p'.jobs ensures JobFits(p', j) {
      assert JobFits(p, j);
    }
    forall m | m in p'.emitted ensures EmissionFits(p', m) {
      assert EmissionFits(p, m);
      if m.payload.SessionReport? {
        var y :| y in p.execs && y.causal == m.causal && y.session == Some(Some(m.payload.session)) && y.spec.invocation == m.payload.invocation;
        assert y in p'.execs;
      }
    }
    forall i | 0 <= i < |p'.jobs| ensures ReportInTime(p', i) { assert ReportInTime(p, i); }
    forall y | y in p'.execs ensures StartedBy(p', y) {
      if y in p.execs { assert StartedBy(p, y); }
    }
  }

  lemma DispatchStartSessions(p: Process, m: ServerMessage, env: Env)
    requires SessionsOk(p) && Unused(p, m.id) && m.payload.StartInvocation? && m in p.commands
    ensures SessionsOk(DispatchStart(p, m.id, m.payload.spec, env))
  {
    var spec := m.payload.spec;
    var p' := DispatchStart(p, m.id, spec, env);
    if p'.emitted != p.emitted {
      EmitSessions(p, m.id, p'.emitted[|p.emitted|].payload);
    } else {
      StartedSessions(p, Exec(m.id, spec, false, false, None, None, Open, Open, 0));
    }
  }

  lemma DispatchStopSessions(p: Process, causal: MessageId, target: InvocationId, env: Env)
    requires SessionsOk(p) && ActiveOk(p)
    ensures SessionsOk(DispatchStop(p, causal, target, env))
  {
    match StopRefusal(p, target)
    case Some(code) => EmitSessions(p, causal, HostFault(Some(target), code));
    case None =>
      var e := p.active.value;
      var x := p.execs[e];
      if !x.completionSettled && p.state != Stopping { AskedSessions(p, e); }
  }

  /** An execution asked to stop, and one whose stop throws. */
  lemma AskedSessions(p: Process, e: nat)
    requires SessionsOk(p) && e < |p.execs|
    ensures var asked := p.(state := Stopping, execs := p.execs[e := p.execs[e].(stopCalls := p.execs[e].stopCalls + 1)]);
            SessionsOk(asked) && SessionsOk(FailExec(asked, e, AdapterStopFailed))
  {
    var asked := p.(state := Stopping, execs := p.execs[e := p.execs[e].(stopCalls := p.execs[e].stopCalls + 1)]);
    SameSessionsKeep(p, asked, e);
    FailExecSessions(asked, e, AdapterStopFailed);
  }

  lemma DispatchInitializeSessions(p: Process, causal: MessageId, launch: LaunchSpec, env: Env)
    requires SessionsOk(p) && ReservationsOk(p) && ActiveOk(p)
    ensures SessionsOk(DispatchInitialize(p, causal, launch, env))
  {
    if launch.project != p.identity.project || launch.actor != p.identity.actor {
      EmitSessions(p, causal, HostFault(None, IdentityMismatch));
    } else {
      InitializeSessions(p, Caller(causal, launch.actor), launch, env);
    }
  }

  lemma InitializeSessions(p: Process, caller: Caller, launch: LaunchSpec, env: Env)
    requires SessionsOk(p)
    ensures SessionsOk(SupervisorInitialize(p, caller, launch, env))
  {
    OtherRepliesKeep(p, SupervisorInitialize(p, caller, launch, env));
  }

  lemma DispatchSessions(p: Process, m: ServerMessage, env: Env)
    requires SessionsOk(p) && StatesOk(p) && InitializationOk(p) && Accounted(p) && Enabled(p, Command(m, env))
    ensures SessionsOk(Dispatch(p, m, env))
  {
    var seen := p.(commands := p.commands + [m]);
    SeenSessions(p, m);
    assert !KnownId(p.commands, m.id);
    NewIdIsUnused(p, m.id);
    match m.payload
    case InitializeActorHost(launch) => DispatchInitializeSessions(seen, m.id, launch, env);
    case StartInvocation(spec) => DispatchStartSessions(seen, m, env);
    case StopInvocation(target) => DispatchStopSessions(seen, m.id, target, env);
    case _ =>
  }

  lemma SessionSettlesSessions(p: Process, e: nat, outcome: Outcome<Option<SessionId>>)
    requires SessionsOk(p) && SessionsAwaited(p) && Enabled(p, SessionSettles(e, outcome))
    ensures SessionsOk(Step(p, SessionSettles(e, outcome)))
  {
    var p' := Step(p, SessionSettles(e, outcome));
    assert Carries(p, p');
    forall j | j in p.jobs ensures !(j.SessionReaction? && j.exec == e) { assert JobFits(p, j); }
    assert p.execs[e] in p.execs;
    forall j | j in p'.jobs ensures JobFits(p', j) {
      if j in p.jobs { JobCarries(p, p', j); }
    }
    ReportsCarry(p, p');
    EmissionsCarry(p, p');
    OriginsCarry(p, p');
  }

  /** The derived session promise resolves only after the adapter's. */
  ghost predicate SessionsAwaited(p: Process) {
    forall x | x in p.execs && x.adapterSession == Open :: x.session.None?
  }
}
