/** `ServerConnection`: the actor host's end of the Host protocol. */
module HostEndpoint {
  import opened HostMessages
  import opened Options

  datatype HostState = NotStarted | HostLive | HostFailed

  /** The fields of a `ServerConnection`, with what it wrote so far. */
  datatype Host = Host(
    identity: Identity, generation: int, state: HostState, nextInbound: int, nextOutbound: int, wrote: seq<HostMessage>)

  datatype HostSendResult = HostSent | HostAlreadyStarted | HostNotStarted | HostSendFailed | HostTransportFailed

  datatype HostInbound =
    | HostAccepted(message: ServerMessage)
    | InboundNotStarted | InboundFailed | HostDecodeFailed | HostGenerationMismatch | HostSequenceStale | HostSequenceGap

  function Created(identity: Identity, generation: int): Host {
    Host(identity, generation, NotStarted, 0, 0, [])
  }

  function FailHost(h: Host): Host {
    h.(state := HostFailed)
  }

  function WriteHost(h: Host, payload: HostPayload, causal: Option<MessageId>, supply: Supply): (Host, HostSendResult) {
    var attempted := h.(nextOutbound := h.nextOutbound + 1);
    if supply.NoEnvelope? || h.nextOutbound > MAX_SAFE_INTEGER then (FailHost(attempted), HostTransportFailed)
    else
      (attempted.(wrote := h.wrote + [Message(supply.id, causal, h.nextOutbound, h.generation, payload)]), HostSent)
  }

  function Start(h: Host, supply: Supply): (Host, HostSendResult) {
    match h.state
    case HostLive => (h, HostAlreadyStarted)
    case HostFailed => (h, HostSendFailed)
    case NotStarted =>
      match WriteHost(h, HostHello(h.identity), None, supply)
      case (h1, HostSent) => (h1.(state := HostLive), HostSent)
      case other => other
  }

  function SendHost(h: Host, payload: HostPayload, causal: Option<MessageId>, supply: Supply): (Host, HostSendResult) {
    match h.state
    case NotStarted => (h, HostNotStarted)
    case HostFailed => (h, HostSendFailed)
    case HostLive => WriteHost(h, payload, causal, supply)
  }

  /** `receive` up to the hand-over to the command processor. A bad message is refused without failing. */
  function ReceiveHost(h: Host, input: Option<ServerMessage>): (Host, HostInbound) {
    if h.state == NotStarted then (h, InboundNotStarted)
    else if h.state == HostFailed then (h, InboundFailed)
    else match input
    case None => (h, HostDecodeFailed)
    case Some(m) =>
      if m.generation != h.generation then (h, HostGenerationMismatch)
      else if m.sequence < h.nextInbound then (h, HostSequenceStale)
      else if m.sequence > h.nextInbound then (h, HostSequenceGap)
      else (h.(nextInbound := h.nextInbound + 1), HostAccepted(m))
  }
}
