/** The messages of the Host protocol, as typed data that already satisfies the contract schemas. */
module HostMessages {
  import opened JsonValues
  import opened Options

  // Identifiers and fault codes are only ever compared for equality.
  type ProjectId = int
  type ActorId = int
  type HostId = int
  type RunId = int
  type InvocationId = int
  type SessionId = int
  type MessageId = int

  const MAX_SAFE_INTEGER: int := 0x1F_FFFF_FFFF_FFFF

  /** The generation every gateway connection expects. */
  const GENERATION: int := 1

  /** `AuthenticatedHostContext`, and equally a host's own `HostIdentity`. */
  datatype Identity = Identity(project: ProjectId, actor: ActorId, host: HostId)

  /** `ActorLaunchSpec`: the fields that are inspected, and the whole document for comparison. */
  datatype LaunchSpec = LaunchSpec(project: ProjectId, actor: ActorId, snapshot: int, adapter: int, document: Json)

  datatype SessionDirective = CreateSession | ResumeSession(session: SessionId)

  datatype InvocationSpec = InvocationSpec(
    project: ProjectId, run: RunId, actor: ActorId, invocation: InvocationId, directive: SessionDirective)

  datatype ProcessFact = Exited(code: nat) | Signaled(signal: int) | Stopped | LaunchFailed(error: int)

  datatype InvocationResult = InvocationResult(
    project: ProjectId, run: RunId, actor: ActorId, invocation: InvocationId,
    session: Option<SessionId>, process: ProcessFact)

  /** `SupervisorErrorCode`, as carried by a host fault. */
  datatype FaultCode =
    | NotInitialized | Busy | NoActiveInvocation | InvocationMismatch | AlreadyInitialized | AdapterMismatch
    | IdentityMismatch | InitializationFailed | AdapterStopFailed | SessionObservationFailed
    | CompletionObservationFailed | Quarantined

  datatype ServerPayload =
    | InitializeActorHost(launch: LaunchSpec)
    | StartInvocation(spec: InvocationSpec)
    | StopInvocation(target: InvocationId)
    | ShutdownHost
    | ServerAck(acknowledged: MessageId)

  datatype HostPayload =
    | HostHello(identity: Identity)
    | HostAck(acknowledged: MessageId)
    | HostReady(actor: ActorId)
    | SessionReport(invocation: InvocationId, session: SessionId)
    | ResultReport(result: InvocationResult)
    | HostFault(about: Option<InvocationId>, code: FaultCode)
    | OtherFact(tag: int)       // heartbeat, package publish request, completion request

  /** One envelope, in either direction. */
  datatype Message<+P> = Message(id: MessageId, correlation: Option<MessageId>, sequence: int, generation: int, payload: P)

  type ServerMessage = Message<ServerPayload>
  type HostMessage = Message<HostPayload>

  predicate IsFact(p: HostPayload) {
    !p.HostHello? && !p.HostAck?
  }

  /** What the envelope providers, the schema check and the transport make of one write. */
  datatype Supply = NoEnvelope | Envelope(id: MessageId)

  // ---------------------------------------------------------------- message lists

  function CommandIds(ms: seq<ServerMessage>): seq<MessageId> {
    if ms == [] then []
    else
      var last := ms[|ms| - 1];
      CommandIds(ms[..|ms| - 1]) + (if last.payload.ServerAck? then [] else [last.id])
  }

  function AckedIds(ms: seq<HostMessage>): seq<MessageId> {
    if ms == [] then []
    else
      var last := ms[|ms| - 1];
      AckedIds(ms[..|ms| - 1]) + (if last.payload.HostAck? then [last.payload.acknowledged] else [])
  }

  function Facts(ms: seq<HostMessage>): seq<HostMessage> {
    if ms == [] then []
    else
      var last := ms[|ms| - 1];
      Facts(ms[..|ms| - 1]) + (if IsFact(last.payload) then [last] else [])
  }

  lemma CommandIdsSnoc(ms: seq<ServerMessage>, m: ServerMessage)
    ensures CommandIds(ms + [m]) == CommandIds(ms) + (if m.payload.ServerAck? then [] else [m.id])
  {
    assert (ms + [m])[..|ms|] == ms;
  }

  lemma HostListsSnoc(ms: seq<HostMessage>, m: HostMessage)
    ensures AckedIds(ms + [m]) == AckedIds(ms) + (if m.payload.HostAck? then [m.payload.acknowledged] else [])
    ensures Facts(ms + [m]) == Facts(ms) + (if IsFact(m.payload) then [m] else [])
  {
    assert (ms + [m])[..|ms|] == ms;
  }

  lemma {:induction false} CommandIdsPrefix(ms: seq<ServerMessage>, n: nat)
    requires n <= |ms|
    ensures CommandIds(ms[..n]) <= CommandIds(ms)
    decreases |ms| - n
  {
    if n < |ms| {
      CommandIdsPrefix(ms, n + 1);
      assert ms[..n + 1][..n] == ms[..n];
    } else {
      assert ms[..n] == ms;
    }
  }

  lemma {:induction false} HostListsPrefix(ms: seq<HostMessage>, n: nat)
    requires n <= |ms|
    ensures AckedIds(ms[..n]) <= AckedIds(ms) && Facts(ms[..n]) <= Facts(ms)
    decreases |ms| - n
  {
    if n < |ms| {
      HostListsPrefix(ms, n + 1);
      assert ms[..n + 1][..n] == ms[..n];
    } else {
      assert ms[..n] == ms;
    }
  }

  lemma {:induction false} CommandIdsAre(ms: seq<ServerMessage>)
    ensures forall id :: id in CommandIds(ms) <==> exists i | 0 <= i < |ms| :: !ms[i].payload.ServerAck? && ms[i].id == id
  {
    if ms != [] {
      var front := ms[..|ms| - 1];
      CommandIdsAre(front);
      assert ms == front + [ms[|ms| - 1]];
      forall id | id in CommandIds(front)
        ensures exists i | 0 <= i < |ms| :: !ms[i].payload.ServerAck? && ms[i].id == id
      {
        var i :| 0 <= i < |front| && !front[i].payload.ServerAck? && front[i].id == id;
        assert ms[i] == front[i];
      }
    }
  }

  lemma {:induction false} FactsAre(ms: seq<HostMessage>)
    ensures forall m :: m in Facts(ms) <==> m in ms && IsFact(m.payload)
  {
    if ms != [] {
      FactsAre(ms[..|ms| - 1]);
      assert ms == ms[..|ms| - 1] + [ms[|ms| - 1]];
    }
  }

  predicate Distinct(ids: seq<MessageId>) {
    forall i, j | 0 <= i < j < |ids| :: ids[i] != ids[j]
  }

  /** Messages with distinct ids carry distinct command ids. */
  lemma {:induction false} CommandIdsDistinct(ms: seq<ServerMessage>)
    requires forall i, j | 0 <= i < j < |ms| :: ms[i].id != ms[j].id
    ensures Distinct(CommandIds(ms))
  {
    if ms != [] {
      var front := ms[..|ms| - 1];
      CommandIdsDistinct(front);
      CommandIdsAre(front);
      var last := ms[|ms| - 1];
      assert last.id !in CommandIds(front) by {
        assert forall i | 0 <= i < |front| :: front[i] == ms[i] && ms[i].id != last.id;
      }
      forall i | 0 <= i < |CommandIds(front)| ensures CommandIds(front)[i] != last.id {
        assert CommandIds(front)[i] in CommandIds(front);
      }
    }
  }
}
