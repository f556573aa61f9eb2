/** A gateway connection and a generation-1 host of the same identity, joined by two FIFO channels.

    The host end is abstract here: after acknowledging a command it may emit facts, in any number and
    at any time, that name no command or one it has acknowledged. */
module HostLink {
  import opened HostMessages
  import opened GatewayEndpoint
  import opened HostEndpoint
  import opened Options

  datatype Link = Link(gateway: Gateway, host: Host, toHost: seq<ServerMessage>, toServer: seq<HostMessage>)

  function Connected(identity: Identity): Link {
    Link(Opened(identity), Created(identity, GENERATION), [], [])
  }

  datatype LinkEvent =
    | ServerSends(payload: ServerPayload, causal: Option<MessageId>, supply: Supply)
    | GatewayReceives(supply: Supply, sinkOk: bool)
    | HostStarts(supply: Supply)
    | HostReceives(supply: Supply)
    | HostEmits(fact: HostPayload, causal: Option<MessageId>, supply: Supply)
    | GatewayLosesTransport
    | HostLosesTransport

  /** The server's message id provider never repeats itself. */
  predicate Fresh(g: Gateway, supply: Supply) {
    supply.Envelope? ==> forall i | 0 <= i < |g.sent| :: g.sent[i].id != supply.id
  }

  predicate Enabled(l: Link, e: LinkEvent) {
    match e
    case ServerSends(payload, _, supply) => !payload.ServerAck? && Fresh(l.gateway, supply)
    case GatewayReceives(supply, _) => l.toServer != [] && Fresh(l.gateway, supply)
    case HostReceives(_) => l.toHost != []
    case HostEmits(fact, causal, _) =>
      && IsFact(fact) && MatchesPostHello(l.host.identity, fact)
      && (causal.Some? ==> causal.value in AckedIds(l.host.wrote))
    case _ => true
  }

  /** What was sent since goes onto the channel. */
  function Since<T>(before: seq<T>, after: seq<T>): seq<T> {
    if |before| <= |after| then after[|before|..] else []
  }

  function WithGateway(l: Link, g: Gateway): Link {
    l.(gateway := g, toHost := l.toHost + Since(l.gateway.sent, g.sent))
  }

  function WithHost(l: Link, h: Host): Link {
    l.(host := h, toServer := l.toServer + Since(l.host.wrote, h.wrote))
  }

  /** The host's receipt of the next message: a command that is accepted is acknowledged at once. */
  function HostTakes(l: Link, supply: Supply): (Link, HostInbound)
    requires l.toHost != []
  {
    var (h, r) := ReceiveHost(l.host, Some(l.toHost[0]));
    var taken := l.(toHost := l.toHost[1..], host := h);
    if r.HostAccepted? && !r.message.payload.ServerAck? then
      (WithHost(taken, SendHost(h, HostAck(r.message.id), Some(r.message.id), supply).0), r)
    else (taken, r)
  }

  function GatewayTakes(l: Link, supply: Supply, sinkOk: bool): (Link, InboundResult)
    requires l.toServer != []
  {
    var (g, r) := Receive(l.gateway, Some(l.toServer[0]), supply, sinkOk);
    (WithGateway(l.(toServer := l.toServer[1..]), g), r)
  }

  function LinkStep(l: Link, e: LinkEvent): Link
    requires Enabled(l, e)
  {
    match e
    case ServerSends(payload, causal, supply) => WithGateway(l, Send(l.gateway, payload, causal, supply).0)
    case GatewayReceives(supply, sinkOk) => GatewayTakes(l, supply, sinkOk).0
    case HostStarts(supply) => WithHost(l, Start(l.host, supply).0)
    case HostReceives(supply) => HostTakes(l, supply).0
    case HostEmits(fact, causal, supply) => WithHost(l, SendHost(l.host, fact, causal, supply).0)
    case GatewayLosesTransport => l.(gateway := Fail(l.gateway))
    case HostLosesTransport => l.(host := FailHost(l.host))
  }

  // ---------------------------------------------------------------- what every step keeps

  /** A live end has numbered its messages 0, 1, 2, .. and its counter is the next number. */
  ghost predicate GatewayNumbers(g: Gateway) {
    && (g.state != Failed ==> g.nextOutbound == |g.sent|)
    && (forall i | 0 <= i < |g.sent| :: g.sent[i].sequence == i && g.sent[i].generation == GENERATION)
    && (forall i, j | 0 <= i < j < |g.sent| :: g.sent[i].id != g.sent[j].id)
    && (g.state == Pending ==> g.sent == [] && g.nextInbound == 0 && g.delivered == [])
    && (g.state == Live ==> g.nextInbound >= 1)
  }

  ghost predicate HostNumbers(h: Host) {
    && h.generation == GENERATION
    && (h.state != HostFailed ==> h.nextOutbound == |h.wrote|)
    && (forall i | 0 <= i < |h.wrote| :: h.wrote[i].sequence == i && h.wrote[i].generation == GENERATION)
    && (h.state == NotStarted ==> h.wrote == [] && h.nextInbound == 0)
    && (h.state == HostLive ==> h.wrote != [])
    && (h.wrote != [] ==> h.wrote[0].payload == HostHello(h.identity))
    && (forall i | 0 < i < |h.wrote| :: !h.wrote[i].payload.HostHello? && MatchesPostHello(h.identity, h.wrote[i].payload))
  }

  /** A channel holds exactly what its live receiver has not taken yet. */
  ghost predicate Channels(l: Link) {
    && (l.host.state != HostFailed ==>
          0 <= l.host.nextInbound <= |l.gateway.sent| && l.toHost == l.gateway.sent[l.host.nextInbound..])
    && (l.gateway.state != Failed ==>
          0 <= l.gateway.nextInbound <= |l.host.wrote| && l.toServer == l.host.wrote[l.gateway.nextInbound..])
    && (l.host.wrote == [] ==> l.gateway.sent == [])
  }

  /** The host acknowledges commands in order, all those it took unless it failed doing so. */
  ghost predicate AcksFollowCommands(l: Link) {
    && 0 <= l.host.nextInbound <= |l.gateway.sent|
    && AckedIds(l.host.wrote) <= CommandIds(l.gateway.sent[..l.host.nextInbound])
    && (l.host.state != HostFailed ==> AckedIds(l.host.wrote) == CommandIds(l.gateway.sent[..l.host.nextInbound]))
  }

  /** The gateway waits for exactly the commands whose acknowledgement it has not taken. */
  ghost predicate PendingAwaitAcks(l: Link) {
    if l.gateway.state == Failed then l.gateway.pendingCommands == map[]
    else
      && 0 <= l.gateway.nextInbound <= |l.host.wrote|
      && forall id :: id in l.gateway.pendingCommands <==>
           id in CommandIds(l.gateway.sent) && id !in AckedIds(l.host.wrote[..l.gateway.nextInbound])
  }

  /** A fact names only a command acknowledged before it. */
  ghost predicate FactsFollowAcks(h: Host) {
    forall i | 0 <= i < |h.wrote| && IsFact(h.wrote[i].payload) && h.wrote[i].correlation.Some? ::
      h.wrote[i].correlation.value in AckedIds(h.wrote[..i])
  }

  function DeliveredFacts(ds: seq<Delivery>): (r: seq<HostMessage>)
    ensures |r| == |ds| && forall i | 0 <= i < |ds| :: r[i] == ds[i].fact
  {
    seq(|ds|, i requires 0 <= i < |ds| => ds[i].fact)
  }

  ghost predicate DeliveriesFollowFacts(l: Link) {
    && DeliveredFacts(l.gateway.delivered) <= Facts(l.host.wrote)
    && (l.gateway.state != Failed ==>
          && 0 <= l.gateway.nextInbound <= |l.host.wrote|
          && DeliveredFacts(l.gateway.delivered) == Facts(l.host.wrote[..l.gateway.nextInbound]))
  }

  /** The gateway's acknowledgement of a delivered fact was its last message before the delivery. */
  ghost predicate AckedBeforeDelivery(g: Gateway) {
    forall d | d in g.delivered ::
      && 1 <= d.sentBefore <= |g.sent|
      && g.sent[d.sentBefore - 1].payload == ServerAck(d.fact.id)
      && g.sent[d.sentBefore - 1].correlation == Some(d.fact.id)
  }

  /** What a delivered fact names was sent, and is no longer pending. */
  ghost predicate DeliveredAreSettled(g: Gateway) {
    forall d | d in g.delivered && d.fact.correlation.Some? ::
      d.fact.correlation.value in CommandIds(g.sent) && d.fact.correlation.value !in g.pendingCommands
  }

  ghost predicate Invariant(l: Link) {
    && l.gateway.identity == l.host.identity
    && GatewayNumbers(l.gateway) && HostNumbers(l.host) && Channels(l)
    && AcksFollowCommands(l) && PendingAwaitAcks(l)
    && FactsFollowAcks(l.host) && DeliveriesFollowFacts(l)
    && AckedBeforeDelivery(l.gateway) && DeliveredAreSettled(l.gateway)
  }

  // ---------------------------------------------------------------- one end writes

  /** The live gateway put `m` on the channel. */
  ghost predicate GatewaySent(l: Link, l': Link, m: ServerMessage) {
    var g := l.gateway;
    && g.state == Live && l'.host == l.host && l'.toServer == l.toServer
    && m.sequence == |g.sent| && m.generation == GENERATION
    && (forall i | 0 <= i < |g.sent| :: g.sent[i].id != m.id)
    && l'.gateway == g.(nextOutbound := g.nextOutbound + 1, sent := g.sent + [m],
                        pendingCommands := if m.payload.ServerAck? then g.pendingCommands else g.pendingCommands[m.id := m])
    && l'.toHost == l.toHost + [m]
  }

  lemma GatewaySentChannels(l: Link, l': Link, m: ServerMessage)
    requires Channels(l) && AcksFollowCommands(l) && GatewayNumbers(l.gateway) && GatewaySent(l, l', m)
    ensures Channels(l') && AcksFollowCommands(l') && GatewayNumbers(l'.gateway)
  {
    var sent, sent' := l.gateway.sent, l'.gateway.sent;
    assert sent'[..l.host.nextInbound] == sent[..l.host.nextInbound];
    if l.host.state != HostFailed {
      assert sent'[l.host.nextInbound..] == sent[l.host.nextInbound..] + [m];
    }
  }

  /** A new message id was never acknowledged. */
  lemma NewIdIsUnacknowledged(l: Link, m: ServerMessage, n: nat)
    requires AcksFollowCommands(l) && n <= |l.host.wrote|
    requires forall i | 0 <= i < |l.gateway.sent| :: l.gateway.sent[i].id != m.id
    ensures m.id !in CommandIds(l.gateway.sent) && m.id !in AckedIds(l.host.wrote[..n])
  {
    CommandIdsAre(l.gateway.sent);
    CommandIdsPrefix(l.gateway.sent, l.host.nextInbound);
    HostListsPrefix(l.host.wrote, n);
  }

  lemma GatewaySentLists(l: Link, l': Link, m: ServerMessage)
    requires AcksFollowCommands(l) && PendingAwaitAcks(l) && DeliveredAreSettled(l.gateway) && GatewaySent(l, l', m)
    ensures PendingAwaitAcks(l') && DeliveredAreSettled(l'.gateway)
  {
    CommandIdsSnoc(l.gateway.sent, m);
    NewIdIsUnacknowledged(l, m, l.gateway.nextInbound);
  }

  lemma GatewaySentKeeps(l: Link, l': Link, m: ServerMessage)
    requires Invariant(l) && GatewaySent(l, l', m)
    ensures Invariant(l')
  {
    GatewaySentChannels(l, l', m);
    GatewaySentLists(l, l', m);
    var sent, sent' := l.gateway.sent, l'.gateway.sent;
    forall d | d in l'.gateway.delivered
      ensures 1 <= d.sentBefore <= |sent'| && sent'[d.sentBefore - 1].payload == ServerAck(d.fact.id)
              && sent'[d.sentBefore - 1].correlation == Some(d.fact.id)
    { assert d in l.gateway.delivered; }
  }

  /** The host put `m` on the channel. */
  ghost predicate HostWrote(l: Link, l': Link, m: HostMessage) {
    && l'.gateway == l.gateway && l'.toHost == l.toHost
    && m.sequence == |l.host.wrote| && m.generation == GENERATION
    && l'.host == l.host.(nextOutbound := l.host.nextOutbound + 1, wrote := l.host.wrote + [m])
    && l'.toServer == l.toServer + [m]
  }

  /** Writing leaves what the gateway took, waits for and delivered as it was. */
  lemma HostWroteLists(l: Link, l': Link, m: HostMessage)
    requires Invariant(l) && HostWrote(l, l', m)
    requires IsFact(m.payload) && m.correlation.Some? ==> m.correlation.value in AckedIds(l.host.wrote)
    ensures PendingAwaitAcks(l') && DeliveriesFollowFacts(l') && FactsFollowAcks(l'.host)
  {
    var wrote, wrote' := l.host.wrote, l'.host.wrote;
    HostListsSnoc(wrote, m);
    if l.gateway.state != Failed {
      assert wrote'[..l.gateway.nextInbound] == wrote[..l.gateway.nextInbound];
    }
    forall i | 0 <= i < |wrote'| && IsFact(wrote'[i].payload) && wrote'[i].correlation.Some?
      ensures wrote'[i].correlation.value in AckedIds(wrote'[..i])
    {
      assert wrote'[..i] == wrote[..i];
      if i == |wrote| { assert wrote[..i] == wrote; }
    }
  }

  lemma HostWroteChannel(l: Link, l': Link, m: HostMessage)
    requires Invariant(l) && HostWrote(l, l', m)
    ensures l.gateway.state != Failed ==>
              0 <= l'.gateway.nextInbound <= |l'.host.wrote| && l'.toServer == l'.host.wrote[l'.gateway.nextInbound..]
  {
    if l.gateway.state != Failed {
      assert l'.host.wrote[l.gateway.nextInbound..] == l.host.wrote[l.gateway.nextInbound..] + [m];
    }
  }

  lemma FactWrittenKeeps(l: Link, l': Link, m: HostMessage)
    requires Invariant(l) && HostWrote(l, l', m) && l.host.state == HostLive && l.host.wrote != []
    requires IsFact(m.payload) && MatchesPostHello(l.host.identity, m.payload)
    requires m.correlation.Some? ==> m.correlation.value in AckedIds(l.host.wrote)
    ensures Invariant(l')
  {
    HostWroteLists(l, l', m);
    HostWroteChannel(l, l', m);
    HostListsSnoc(l.host.wrote, m);
  }

  lemma HelloWrittenKeeps(l: Link, l': Link, m: HostMessage)
    requires Invariant(l) && l.host.state == NotStarted && m.payload == HostHello(l.host.identity)
    requires HostWrote(l, l'.(host := l'.host.(state := NotStarted)), m) && l'.host.state == HostLive
    ensures Invariant(l')
  {
    var written := l'.(host := l'.host.(state := NotStarted));
    HostWroteLists(l, written, m);
    HostWroteChannel(l, written, m);
    HostListsSnoc(l.host.wrote, m);
  }

  // ---------------------------------------------------------------- an end fails

  lemma GatewayFailureKeeps(l: Link, l': Link)
    requires Invariant(l) && l'.host == l.host
    requires l'.gateway == Fail(l.gateway.(nextInbound := l'.gateway.nextInbound, nextOutbound := l'.gateway.nextOutbound))
    requires l'.toHost == l.toHost
    ensures Invariant(l')
  {}

  lemma HostFailureKeeps(l: Link, l': Link)
    requires Invariant(l) && l'.gateway == l.gateway && l'.toServer == l.toServer
    requires l'.host == FailHost(l.host.(nextOutbound := l'.host.nextOutbound))
    ensures Invariant(l')
  {}

  // ---------------------------------------------------------------- every step keeps the invariant

  lemma ServerSendsKeeps(l: Link, payload: ServerPayload, causal: Option<MessageId>, supply: Supply)
    requires Invariant(l) && Enabled(l, ServerSends(payload, causal, supply))
    ensures Invariant(LinkStep(l, ServerSends(payload, causal, supply)))
  {
    var l' := LinkStep(l, ServerSends(payload, causal, supply));
    match Send(l.gateway, payload, causal, supply).1
    case Sent(m) => GatewaySentKeeps(l, l', m);
    case SendRejected(_) => assert l' == l;
    case SendTransportFailed => GatewayFailureKeeps(l, l');
  }

  /** A message that reaches a gateway that has not failed is the one it expects: nothing is ever
      rejected, and an acknowledgement is never ignored. */
  lemma GatewayAccepts(l: Link, supply: Supply, sinkOk: bool)
    requires Invariant(l) && l.toServer != [] && l.gateway.state != Failed
    ensures var r := GatewayTakes(l, supply, sinkOk).1;
            && l.toServer[0].sequence == l.gateway.nextInbound
            && (r.TransportFailed? <==> !l.toServer[0].payload.HostAck? && (supply.NoEnvelope? || l.gateway.nextOutbound > MAX_SAFE_INTEGER))
            && !r.Rejected? && !r.AckIgnored?
            && (r.HelloRegistered? ==> l.toServer[0].payload.HostHello? && l.gateway.state == Pending)
            && (r.Acknowledged? <==> l.toServer[0].payload.HostAck?)
            && (r.FactDelivered? ==> IsFact(l.toServer[0].payload) && r.fact == l.toServer[0])
  {
    var m := l.toServer[0];
    assert m == l.host.wrote[l.gateway.nextInbound];
    if m.payload.HostAck? {
      AckIsAwaited(l, m);
    }
  }

  /** The next acknowledgement in the channel is of a pending command. */
  lemma AckIsAwaited(l: Link, m: HostMessage)
    requires Invariant(l) && l.gateway.state != Failed && 0 <= l.gateway.nextInbound < |l.host.wrote|
    requires m == l.host.wrote[l.gateway.nextInbound] && m.payload.HostAck?
    ensures m.payload.acknowledged in l.gateway.pendingCommands
  {
    var n := l.gateway.nextInbound;
    var taken := l.host.wrote[..n];
    assert l.host.wrote[..n + 1] == taken + [m];
    HostListsSnoc(taken, m);
    HostListsPrefix(l.host.wrote, n + 1);
    CommandIdsPrefix(l.gateway.sent, l.host.nextInbound);
    CommandIdsDistinct(l.gateway.sent);
    var acked, commands := AckedIds(taken), CommandIds(l.gateway.sent);
    assert acked + [m.payload.acknowledged] <= commands;
    assert commands[|acked|] == m.payload.acknowledged;
    assert forall i | 0 <= i < |acked| :: acked[i] == commands[i];
  }

  lemma AckTakenKeeps(l: Link, supply: Supply, sinkOk: bool)
    requires Invariant(l) && l.toServer != [] && l.gateway.state != Failed && l.toServer[0].payload.HostAck?
    ensures Invariant(GatewayTakes(l, supply, sinkOk).0)
  {
    var l' := GatewayTakes(l, supply, sinkOk).0;
    var n := l.gateway.nextInbound;
    var m := l.toServer[0];
    assert m == l.host.wrote[n] && l.host.wrote[..n + 1] == l.host.wrote[..n] + [m];
    HostListsSnoc(l.host.wrote[..n], m);
    assert Since(l.gateway.sent, l'.gateway.sent) == [];
    assert l'.toHost == l.toHost;
    assert l'.toServer == l.host.wrote[n + 1..];
  }

  /** A fact about to be taken names a command that was sent and whose acknowledgement came before. */
  lemma FactNamesSettled(l: Link, m: HostMessage)
    requires FactsFollowAcks(l.host) && AcksFollowCommands(l) && PendingAwaitAcks(l)
    requires l.gateway.state == Live && 0 <= l.gateway.nextInbound < |l.host.wrote|
    requires m == l.host.wrote[l.gateway.nextInbound] && IsFact(m.payload) && m.correlation.Some?
    ensures m.correlation.value in CommandIds(l.gateway.sent) && m.correlation.value !in l.gateway.pendingCommands
  {
    var acked := AckedIds(l.host.wrote[..l.gateway.nextInbound]);
    assert m.correlation.value in acked;
    HostListsPrefix(l.host.wrote, l.gateway.nextInbound);
    CommandIdsPrefix(l.gateway.sent, l.host.nextInbound);
    assert acked <= CommandIds(l.gateway.sent);
    PendingMeans(l, m.correlation.value);
  }

  lemma PendingMeans(l: Link, id: MessageId)
    requires PendingAwaitAcks(l) && l.gateway.state != Failed
    ensures id in l.gateway.pendingCommands <==>
            id in CommandIds(l.gateway.sent) && id !in AckedIds(l.host.wrote[..l.gateway.nextInbound])
  {}

  /** The gateway moved past fact `m` after acknowledging it and handed it to the sink. */
  ghost predicate FactTaken(l: Link, l': Link, m: HostMessage) {
    var g := l.gateway;
    && g.state == Live && l.toServer != [] && m == l.toServer[0] && IsFact(m.payload)
    && l' == l.(toServer := l.toServer[1..], gateway := g.(
         nextInbound := g.nextInbound + 1, delivered := g.delivered + [Delivery(m, |g.sent|)]))
  }

  lemma FactTakenLists(l: Link, l': Link, m: HostMessage)
    requires FactTaken(l, l', m) && Channels(l) && PendingAwaitAcks(l) && DeliveriesFollowFacts(l)
    ensures Channels(l') && PendingAwaitAcks(l') && DeliveriesFollowFacts(l')
  {
    var n := l.gateway.nextInbound;
    assert m == l.host.wrote[n] && l.host.wrote[..n + 1] == l.host.wrote[..n] + [m];
    HostListsSnoc(l.host.wrote[..n], m);
    assert l'.toServer == l.host.wrote[n + 1..];
    assert DeliveredFacts(l'.gateway.delivered) == DeliveredFacts(l.gateway.delivered) + [m];
    HostListsPrefix(l.host.wrote, n + 1);
  }

  lemma FactTakenDeliveries(l: Link, l': Link, m: HostMessage)
    requires FactTaken(l, l', m) && Channels(l) && FactsFollowAcks(l.host) && AcksFollowCommands(l) && PendingAwaitAcks(l)
    requires AckedBeforeDelivery(l.gateway) && DeliveredAreSettled(l.gateway)
    requires l.gateway.sent != [] && l.gateway.sent[|l.gateway.sent| - 1].payload == ServerAck(m.id)
    requires l.gateway.sent[|l.gateway.sent| - 1].correlation == Some(m.id)
    ensures AckedBeforeDelivery(l'.gateway) && DeliveredAreSettled(l'.gateway)
  {
    assert m == l.host.wrote[l.gateway.nextInbound];
    if m.correlation.Some? { FactNamesSettled(l, m); }
  }

  lemma FactTakenKeeps(l: Link, l': Link, m: HostMessage)
    requires Invariant(l) && FactTaken(l, l', m)
    requires l.gateway.sent != [] && l.gateway.sent[|l.gateway.sent| - 1].payload == ServerAck(m.id)
    requires l.gateway.sent[|l.gateway.sent| - 1].correlation == Some(m.id)
    ensures Invariant(l')
  {
    FactTakenLists(l, l', m);
    FactTakenDeliveries(l, l', m);
  }

  /** What taking a fact amounts to: write the acknowledgement, then move on and deliver. */
  lemma FactTakenAs(l: Link, supply: Supply, sinkOk: bool)
    requires l.toServer != [] && l.gateway.state == Live
    requires IsFact(l.toServer[0].payload) && MatchesPostHello(l.gateway.identity, l.toServer[0].payload)
    requires l.toServer[0].generation == GENERATION && l.toServer[0].sequence == l.gateway.nextInbound
    ensures var m := l.toServer[0];
            var (g1, r) := Write(l.gateway, ServerAck(m.id), Some(m.id), false, supply);
            var moved := g1.(nextInbound := g1.nextInbound + 1);
            var l' := GatewayTakes(l, supply, sinkOk).0;
            && l'.host == l.host && l'.toServer == l.toServer[1..]
            && (r.Sent? ==> l'.toHost == l.toHost + [r.message]
                            && l'.gateway == if sinkOk then moved.(delivered := moved.delivered + [Delivery(m, |moved.sent|)]) else Fail(moved))
            && (!r.Sent? ==> l'.toHost == l.toHost && l'.gateway == g1)
  {}

  lemma FactReceivedKeeps(l: Link, supply: Supply, sinkOk: bool)
    requires Invariant(l) && Enabled(l, GatewayReceives(supply, sinkOk)) && l.gateway.state == Live
    requires IsFact(l.toServer[0].payload) && MatchesPostHello(l.gateway.identity, l.toServer[0].payload)
    requires l.toServer[0].generation == GENERATION && l.toServer[0].sequence == l.gateway.nextInbound
    ensures Invariant(GatewayTakes(l, supply, sinkOk).0)
  {
    var m := l.toServer[0];
    FactTakenAs(l, supply, sinkOk);
    if Write(l.gateway, ServerAck(m.id), Some(m.id), false, supply).1.Sent? {
      FactAcknowledgedKeeps(l, GatewayTakes(l, supply, sinkOk).0, m, supply, sinkOk);
    } else {
      GatewayFailureKeeps(l, GatewayTakes(l, supply, sinkOk).0);
    }
  }

  /** The fact's acknowledgement went out: the sink decides the rest. */
  lemma FactAcknowledgedKeeps(l: Link, l': Link, m: HostMessage, supply: Supply, sinkOk: bool)
    requires Invariant(l) && l.gateway.state == Live && l.toServer != [] && m == l.toServer[0] && IsFact(m.payload)
    requires supply.Envelope? && Fresh(l.gateway, supply) && Write(l.gateway, ServerAck(m.id), Some(m.id), false, supply).1.Sent?
    requires var (g1, r) := Write(l.gateway, ServerAck(m.id), Some(m.id), false, supply);
             var moved := g1.(nextInbound := g1.nextInbound + 1);
             && l'.gateway == (if sinkOk then moved.(delivered := moved.delivered + [Delivery(m, |moved.sent|)]) else Fail(moved))
             && l'.host == l.host && l'.toHost == l.toHost + [r.message] && l'.toServer == l.toServer[1..]
    ensures Invariant(l')
  {
    var (g1, r) := Write(l.gateway, ServerAck(m.id), Some(m.id), false, supply);
    var acked := l.(gateway := g1, toHost := l.toHost + [r.message]);
    GatewaySentKeeps(l, acked, r.message);
    FactReceivedEnds(l, l', acked, m, sinkOk);
  }

  lemma FactReceivedEnds(l: Link, l': Link, acked: Link, m: HostMessage, sinkOk: bool)
    requires Invariant(acked) && acked.gateway.state == Live && acked.toServer != [] && m == acked.toServer[0] && IsFact(m.payload)
    requires acked.gateway.sent != [] && acked.gateway.sent[|acked.gateway.sent| - 1].payload == ServerAck(m.id)
    requires acked.gateway.sent[|acked.gateway.sent| - 1].correlation == Some(m.id)
    requires l'.host == acked.host && l'.toHost == acked.toHost && l'.toServer == acked.toServer[1..]
    requires var moved := acked.gateway.(nextInbound := acked.gateway.nextInbound + 1);
             l'.gateway == if sinkOk then moved.(delivered := moved.delivered + [Delivery(m, |moved.sent|)]) else Fail(moved)
    ensures Invariant(l')
  {
    if sinkOk {
      FactTakenKeeps(acked, l', m);
    } else {
      GatewayFailureKeeps(acked, l');
    }
  }

  lemma HelloReceivedKeeps(l: Link, supply: Supply, sinkOk: bool)
    requires Invariant(l) && Enabled(l, GatewayReceives(supply, sinkOk)) && l.gateway.state == Pending
    ensures Invariant(GatewayTakes(l, supply, sinkOk).0)
  {
    var m := l.toServer[0];
    assert m == l.host.wrote[0];
    var l' := GatewayTakes(l, supply, sinkOk).0;
    var (g1, r) := Write(l.gateway, ServerAck(m.id), Some(m.id), false, supply);
    if r.Sent? {
      CommandIdsSnoc([], r.message);
      assert l'.gateway.sent == [r.message] && l'.toHost == l.toHost + [r.message];
      assert l'.toServer == l.host.wrote[1..];
      assert l.host.wrote[..1] == l.host.wrote[..0] + [m];
      HostListsSnoc(l.host.wrote[..0], m);
      if l.host.state != HostFailed { assert l.host.nextInbound == 0; }
    } else {
      GatewayFailureKeeps(l, l');
    }
  }

  lemma GatewayReceivesKeeps(l: Link, supply: Supply, sinkOk: bool)
    requires Invariant(l) && Enabled(l, GatewayReceives(supply, sinkOk))
    ensures Invariant(LinkStep(l, GatewayReceives(supply, sinkOk)))
  {
    var m := l.toServer[0];
    match l.gateway.state
    case Failed =>
      assert Since(l.gateway.sent, l.gateway.sent) == [];
    case Pending => HelloReceivedKeeps(l, supply, sinkOk);
    case Live =>
      assert m == l.host.wrote[l.gateway.nextInbound];
      if m.payload.HostAck? {
        AckTakenKeeps(l, supply, sinkOk);
      } else {
        FactReceivedKeeps(l, supply, sinkOk);
      }
  }

  /** A message that reaches a host that has not failed is the one it expects. */
  lemma HostAccepts(l: Link, supply: Supply)
    requires Invariant(l) && l.toHost != [] && l.host.state != HostFailed
    ensures l.toHost[0].sequence == l.host.nextInbound
    ensures HostTakes(l, supply).1 == HostAccepted(l.toHost[0])
  {
    assert l.toHost[0] == l.gateway.sent[l.host.nextInbound];
  }

  /** The host moved past a message that it owes no acknowledgement, or failed to acknowledge. */
  lemma HostPassesKeeps(l: Link, l': Link)
    requires Invariant(l) && l.host.state == HostLive && l.toHost != []
    requires l'.gateway == l.gateway && l'.toServer == l.toServer && l'.toHost == l.toHost[1..]
    requires var passed := l.host.(nextInbound := l.host.nextInbound + 1, nextOutbound := l'.host.nextOutbound);
             if l.toHost[0].payload.ServerAck? && l'.host.state == HostLive
             then l'.host == passed && l'.host.nextOutbound == l.host.nextOutbound else l'.host == FailHost(passed)
    ensures Invariant(l')
  {
    var n := l.host.nextInbound;
    var m := l.toHost[0];
    assert m == l.gateway.sent[n] && l.gateway.sent[..n + 1] == l.gateway.sent[..n] + [m];
    CommandIdsSnoc(l.gateway.sent[..n], m);
    assert l.toHost[1..] == l.gateway.sent[n + 1..];
  }

  /** The host moved past a command and put its acknowledgement on the channel. */
  lemma HostAcknowledgesKeeps(l: Link, l': Link, ack: HostMessage)
    requires Invariant(l) && l.host.state == HostLive && l.toHost != [] && !l.toHost[0].payload.ServerAck?
    requires HostWrote(l, l'.(toHost := l.toHost, host := l'.host.(nextInbound := l.host.nextInbound)), ack)
    requires l'.toHost == l.toHost[1..] && l'.host.nextInbound == l.host.nextInbound + 1
    requires ack.payload == HostAck(l.toHost[0].id)
    ensures Invariant(l')
  {
    var written := l'.(toHost := l.toHost, host := l'.host.(nextInbound := l.host.nextInbound));
    HostWroteLists(l, written, ack);
    HostWroteChannel(l, written, ack);
    NextCommandIsTaken(l);
    AcknowledgedFollows(l, l', ack);
  }

  /** The next message is the next of those sent, and taking it takes its id. */
  lemma NextCommandIsTaken(l: Link)
    requires Channels(l) && l.host.state == HostLive && l.toHost != []
    ensures var n := l.host.nextInbound;
            && 0 <= n < |l.gateway.sent| && l.toHost[0] == l.gateway.sent[n] && l.toHost[1..] == l.gateway.sent[n + 1..]
            && CommandIds(l.gateway.sent[..n + 1])
               == CommandIds(l.gateway.sent[..n]) + (if l.toHost[0].payload.ServerAck? then [] else [l.toHost[0].id])
  {
    var n := l.host.nextInbound;
    assert l.gateway.sent[..n + 1] == l.gateway.sent[..n] + [l.toHost[0]];
    CommandIdsSnoc(l.gateway.sent[..n], l.toHost[0]);
  }

  lemma AcknowledgedFollows(l: Link, l': Link, ack: HostMessage)
    requires AcksFollowCommands(l) && HostNumbers(l.host) && l.host.state == HostLive && ack.payload.HostAck?
    requires 0 <= l.host.nextInbound < |l.gateway.sent| && l'.gateway == l.gateway
    requires ack.sequence == |l.host.wrote| && ack.generation == GENERATION
    requires l'.host == l.host.(nextInbound := l.host.nextInbound + 1, nextOutbound := l.host.nextOutbound + 1, wrote := l.host.wrote + [ack])
    requires CommandIds(l.gateway.sent[..l.host.nextInbound + 1]) == CommandIds(l.gateway.sent[..l.host.nextInbound]) + [ack.payload.acknowledged]
    ensures AcksFollowCommands(l') && HostNumbers(l'.host)
  {
    HostListsSnoc(l.host.wrote, ack);
  }

  lemma HostAnswersKeeps(l: Link, supply: Supply)
    requires Invariant(l) && l.toHost != [] && l.host.state == HostLive && HostTakes(l, supply).1.HostAccepted?
    requires !l.toHost[0].payload.ServerAck? && supply.Envelope? && l.host.nextOutbound <= MAX_SAFE_INTEGER
    ensures Invariant(HostTakes(l, supply).0)
  {
    var l' := HostTakes(l, supply).0;
    var ack := l'.host.wrote[|l.host.wrote|];
    assert l'.toServer == l.toServer + [ack];
    HostAcknowledgesKeeps(l, l', ack);
  }

  lemma HostReceivesKeeps(l: Link, supply: Supply)
    requires Invariant(l) && l.toHost != []
    ensures Invariant(LinkStep(l, HostReceives(supply)))
  {
    var l' := LinkStep(l, HostReceives(supply));
    if l.host.state == HostLive {
      HostAccepts(l, supply);
      if !l.toHost[0].payload.ServerAck? && supply.Envelope? && l.host.nextOutbound <= MAX_SAFE_INTEGER {
        HostAnswersKeeps(l, supply);
      } else {
        assert l'.toServer == l.toServer;
        HostPassesKeeps(l, l');
      }
    } else {
      assert l.host.state == HostFailed;
      assert l' == l.(toHost := l.toHost[1..]);
    }
  }

  lemma HostStartsKeeps(l: Link, supply: Supply)
    requires Invariant(l)
    ensures Invariant(LinkStep(l, HostStarts(supply)))
  {
    var l' := LinkStep(l, HostStarts(supply));
    var (h, r) := Start(l.host, supply);
    if l.host.state == NotStarted && r == HostSent {
      HelloWrittenKeeps(l, l', h.wrote[0]);
    } else if l.host.state == NotStarted {
      assert l'.toServer == l.toServer;
      HostFailureKeeps(l, l');
    } else {
      assert l' == l;
    }
  }

  lemma HostEmitsKeeps(l: Link, fact: HostPayload, causal: Option<MessageId>, supply: Supply)
    requires Invariant(l) && Enabled(l, HostEmits(fact, causal, supply))
    ensures Invariant(LinkStep(l, HostEmits(fact, causal, supply)))
  {
    var l' := LinkStep(l, HostEmits(fact, causal, supply));
    var (h, r) := SendHost(l.host, fact, causal, supply);
    if r == HostSent {
      FactWrittenKeeps(l, l', h.wrote[|l.host.wrote|]);
    } else if r == HostTransportFailed {
      assert l'.toServer == l.toServer;
      HostFailureKeeps(l, l');
    } else {
      assert l' == l;
    }
  }

  lemma LinkStepKeeps(l: Link, e: LinkEvent)
    requires Invariant(l) && Enabled(l, e)
    ensures Invariant(LinkStep(l, e))
  {
    match e
    case ServerSends(payload, causal, supply) => ServerSendsKeeps(l, payload, causal, supply);
    case GatewayReceives(supply, sinkOk) => GatewayReceivesKeeps(l, supply, sinkOk);
    case HostStarts(supply) => HostStartsKeeps(l, supply);
    case HostReceives(supply) => HostReceivesKeeps(l, supply);
    case HostEmits(fact, causal, supply) => HostEmitsKeeps(l, fact, causal, supply);
    case GatewayLosesTransport => GatewayFailureKeeps(l, LinkStep(l, e));
    case HostLosesTransport => HostFailureKeeps(l, LinkStep(l, e));
  }
}
