/** One gateway connection: the server's end of the Host protocol. */
module GatewayEndpoint {
  import opened HostMessages
  import opened Options

  datatype ConnectionState = Pending | Live | Failed

  /** A fact handed to the sink, with the number of messages sent by then. */
  datatype Delivery = Delivery(fact: HostMessage, sentBefore: nat)

  /** The fields of a `GatewayConnection`, with what it sent and delivered so far. */
  datatype Gateway = Gateway(
    identity: Identity, state: ConnectionState, nextInbound: int, nextOutbound: int,
    pendingCommands: map<MessageId, ServerMessage>,
    sent: seq<ServerMessage>, delivered: seq<Delivery>)

  datatype SendRejection = SendNotLive | SendFailed | SendIdentityMismatch

  datatype SendResult = Sent(message: ServerMessage) | SendRejected(reason: SendRejection) | SendTransportFailed

  datatype Rejection =
    | InFailedState | DecodeFailed | GenerationMismatch | SequenceStale | SequenceGap | WrongFirstPayload
    | DuplicateHello | InboundIdentityMismatch

  datatype InboundResult =
    | Rejected(reason: Rejection)
    | TransportFailed
    | HelloRegistered(acknowledgement: ServerMessage)
    | Acknowledged(id: MessageId)
    | AckIgnored(id: MessageId)
    | FactSinkFailed
    | FactDelivered(fact: HostMessage)

  function Opened(identity: Identity): Gateway {
    Gateway(identity, Pending, 0, 0, map[], [], [])
  }

  function Fail(g: Gateway): Gateway {
    if g.state == Failed then g else g.(state := Failed, pendingCommands := map[])
  }

  function Write(g: Gateway, payload: ServerPayload, causal: Option<MessageId>, track: bool, supply: Supply): (Gateway, SendResult) {
    var attempted := g.(nextOutbound := g.nextOutbound + 1);
    if supply.NoEnvelope? || g.nextOutbound > MAX_SAFE_INTEGER then (Fail(attempted), SendTransportFailed)
    else
      var m := Message(supply.id, causal, g.nextOutbound, GENERATION, payload);
      var pending := if track then g.pendingCommands[m.id := m] else g.pendingCommands;
      (attempted.(sent := g.sent + [m], pendingCommands := pending), Sent(m))
  }

  predicate MatchesOutbound(identity: Identity, payload: ServerPayload) {
    match payload
    case InitializeActorHost(l) => l.project == identity.project && l.actor == identity.actor
    case StartInvocation(s) => s.project == identity.project && s.actor == identity.actor
    case _ => true
  }

  function Send(g: Gateway, payload: ServerPayload, causal: Option<MessageId>, supply: Supply): (Gateway, SendResult) {
    match g.state
    case Failed => (g, SendRejected(SendFailed))
    case Pending => (g, SendRejected(SendNotLive))
    case Live =>
      if !MatchesOutbound(g.identity, payload) then (g, SendRejected(SendIdentityMismatch))
      else Write(g, payload, causal, true, supply)
  }

  predicate MatchesPostHello(identity: Identity, payload: HostPayload) {
    match payload
    case HostReady(actor) => actor == identity.actor
    case ResultReport(r) => r.project == identity.project && r.actor == identity.actor
    case _ => true
  }

  function Reject(g: Gateway, reason: Rejection): (Gateway, InboundResult) {
    (Fail(g), Rejected(reason))
  }

  /** `receive`; an input that does not decode is `None`, and `sinkOk` is whether the sink accepts. */
  function Receive(g: Gateway, input: Option<HostMessage>, supply: Supply, sinkOk: bool): (Gateway, InboundResult) {
    if g.state == Failed then (g, Rejected(InFailedState))
    else match input
    case None => Reject(g, DecodeFailed)
    case Some(m) =>
      if m.generation != GENERATION then Reject(g, GenerationMismatch)
      else if m.sequence < g.nextInbound then Reject(g, SequenceStale)
      else if m.sequence > g.nextInbound then Reject(g, SequenceGap)
      else if g.state == Pending then ReceiveHello(g, m, supply)
      else ReceiveLive(g, m, supply, sinkOk)
  }

  function ReceiveHello(g: Gateway, m: HostMessage, supply: Supply): (Gateway, InboundResult) {
    if !m.payload.HostHello? then Reject(g, WrongFirstPayload)
    else if m.payload.identity != g.identity then Reject(g, InboundIdentityMismatch)
    else match Write(g, ServerAck(m.id), Some(m.id), false, supply)
         case (g1, Sent(ack)) => (g1.(state := Live, nextInbound := g1.nextInbound + 1), HelloRegistered(ack))
         case (g1, _) => (g1, TransportFailed)
  }

  function ReceiveLive(g: Gateway, m: HostMessage, supply: Supply, sinkOk: bool): (Gateway, InboundResult) {
    if m.payload.HostHello? then Reject(g, DuplicateHello)
    else if !MatchesPostHello(g.identity, m.payload) then Reject(g, InboundIdentityMismatch)
    else if m.payload.HostAck? then
      var id := m.payload.acknowledged;
      (g.(nextInbound := g.nextInbound + 1, pendingCommands := g.pendingCommands - {id}),
       if id in g.pendingCommands then Acknowledged(id) else AckIgnored(id))
    else match Write(g, ServerAck(m.id), Some(m.id), false, supply)
         case (g1, Sent(_)) =>
           var g2 := g1.(nextInbound := g1.nextInbound + 1);
           if sinkOk then (g2.(delivered := g2.delivered + [Delivery(m, |g2.sent|)]), FactDelivered(m))
           else (Fail(g2), FactSinkFailed)
         case (g1, _) => (g1, TransportFailed)
  }
}
