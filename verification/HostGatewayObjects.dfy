/** `HostGateway` and its `GatewayConnection` objects: the four registry maps and the connections they
    hold, updated in place. */
module HostGatewayObjects {
  import opened HostMessages
  import opened Options
  import G = GatewayEndpoint
  import opened GatewayEndpoint
  import opened GatewayRegistry

  datatype OpenResult = Accepted(connection: GatewayConnection) | ConnectionExists | OpenTransportFailed

  class HostGateway {
    var pendingByActor: map<ActorId, GatewayConnection>
    var pendingByHost: map<HostId, GatewayConnection>
    var liveByActor: map<ActorId, GatewayConnection>
    var liveByHost: map<HostId, GatewayConnection>
    /** Every connection ever opened, failed ones included. */
    ghost var connections: set<GatewayConnection>

    ghost function Snapshot(): Registry<GatewayConnection>
      reads this, connections`stateValue
    {
      Registry(map c | c in connections :: Entry(c.identity, c.stateValue), pendingByActor, pendingByHost, liveByActor, liveByHost)
    }

    ghost predicate Valid()
      reads this, connections`stateValue
    {
      RegistryOk(Snapshot()) && forall c | c in connections :: c.gateway == this
    }

    constructor ()
      ensures Valid() && connections == {}
    {
      pendingByActor, pendingByHost, liveByActor, liveByHost := map[], map[], map[], map[];
      connections := {};
    }

    /** A connection that has not failed has this actor or this host. */
    ghost predicate Taken(identity: Identity)
      reads this, connections`stateValue
    {
      exists c | c in connections :: c.stateValue != Failed && (c.identity.actor == identity.actor || c.identity.host == identity.host)
    }

    lemma TakenIffOccupied(identity: Identity)
      requires Valid()
      ensures Taken(identity) <==> Occupied(Snapshot(), identity)
    {
      OccupiedIff(Snapshot(), identity);
      assert forall c | c in connections :: Snapshot().known[c] == Entry(c.identity, c.stateValue);
    }

    /** `observed` is whether subscribing to transport failures returns; `failsMeanwhile`, whether the
        listener fires while it does. */
    method OpenConnection(identity: Identity, observed: bool, failsMeanwhile: bool) returns (r: OpenResult)
      requires Valid()
      modifies this
      ensures Valid()
      ensures r == ConnectionExists <==> old(Taken(identity))
      ensures r == ConnectionExists ==> connections == old(connections)
      ensures r.Accepted? ==> fresh(r.connection) && connections == old(connections) + {r.connection}
                              && r.connection.View() == Opened(identity) && observed && !failsMeanwhile
      ensures r == OpenTransportFailed ==> (!observed || failsMeanwhile) && old(connections) <= connections
      ensures r == OpenTransportFailed ==> forall c | c in connections - old(connections) :: fresh(c) && c.stateValue == Failed
    {
      TakenIffOccupied(identity);
      if identity.actor in pendingByActor || identity.host in pendingByHost || identity.actor in liveByActor || identity.host in liveByHost {
        return ConnectionExists;
      }
      var connection := new GatewayConnection(identity, this);
      Register(connection);
      connection.ObserveTransportFailures(observed, failsMeanwhile);
      if connection.stateValue == Failed { return OpenTransportFailed; }
      return Accepted(connection);
    }

    method Register(connection: GatewayConnection)
      requires Valid() && !Occupied(Snapshot(), connection.identity)
      requires connection !in connections && connection.gateway == this && connection.stateValue == Pending
      modifies this`pendingByActor, this`pendingByHost, this`connections
      ensures Valid() && connections == old(connections) + {connection}
      ensures Snapshot() == Open(old(Snapshot()), connection, connection.identity)
    {
      ghost var before := Snapshot();
      AddPending(connection);
      OpenKeeps(before, connection, connection.identity);
    }

    method AddPending(connection: GatewayConnection)
      requires connection !in connections && connection.stateValue == Pending
      modifies this`pendingByActor, this`pendingByHost, this`connections
      ensures connections == old(connections) + {connection}
      ensures Snapshot() == Open(old(Snapshot()), connection, connection.identity)
    {
      ghost var before := Snapshot();
      pendingByActor := pendingByActor[connection.identity.actor := connection];
      pendingByHost := pendingByHost[connection.identity.host := connection];
      connections := connections + {connection};
      assert Snapshot().known == before.known[connection := Entry(connection.identity, Pending)];
    }

    /** Moves a pending connection to the live maps. The guard that would fail it instead cannot hold. */
    method CommitLive(connection: GatewayConnection)
      requires Valid() && connection in connections && connection.stateValue == Pending
      modifies this`pendingByActor, this`pendingByHost, this`liveByActor, this`liveByHost, connection`stateValue
      ensures Valid() && connection.stateValue == Live
      ensures Snapshot() == Committed(old(Snapshot()), connection, connection.identity)
    {
      ghost var before := Snapshot();
      CommitKeeps(before, connection);
      var actor, host := connection.identity.actor, connection.identity.host;
      if actor !in pendingByActor || pendingByActor[actor] != connection || host !in pendingByHost || pendingByHost[host] != connection
         || actor in liveByActor || host in liveByHost
      {
        assert false;      // `connection.failConnection("core")`
      }
      MoveToLive(connection);
    }

    method MoveToLive(connection: GatewayConnection)
      requires connection in connections && connection.stateValue == Pending
      modifies this`pendingByActor, this`pendingByHost, this`liveByActor, this`liveByHost, connection`stateValue
      ensures connection.stateValue == Live && Snapshot() == Committed(old(Snapshot()), connection, connection.identity)
    {
      ghost var before := Snapshot();
      var actor, host := connection.identity.actor, connection.identity.host;
      pendingByActor := pendingByActor - {actor};
      pendingByHost := pendingByHost - {host};
      liveByActor := liveByActor[actor := connection];
      liveByHost := liveByHost[host := connection];
      if connection.stateValue == Pending { connection.stateValue := Live; }
      assert Snapshot().known == before.known[connection := Entry(connection.identity, Live)];
    }

    /** Takes a connection out of whichever maps hold it, and nothing else. */
    method Remove(connection: GatewayConnection)
      modifies this`pendingByActor, this`pendingByHost, this`liveByActor, this`liveByHost
      ensures pendingByActor == Without(old(pendingByActor), connection.identity.actor, connection)
      ensures pendingByHost == Without(old(pendingByHost), connection.identity.host, connection)
      ensures liveByActor == Without(old(liveByActor), connection.identity.actor, connection)
      ensures liveByHost == Without(old(liveByHost), connection.identity.host, connection)
    {
      var actor, host := connection.identity.actor, connection.identity.host;
      if actor in pendingByActor && pendingByActor[actor] == connection { pendingByActor := pendingByActor - {actor}; }
      if host in pendingByHost && pendingByHost[host] == connection { pendingByHost := pendingByHost - {host}; }
      if actor in liveByActor && liveByActor[actor] == connection { liveByActor := liveByActor - {actor}; }
      if host in liveByHost && liveByHost[host] == connection { liveByHost := liveByHost - {host}; }
    }

    /** Reaches the one live connection of the actor, or says there is none. */
    method SendCommand(actor: ActorId, payload: ServerPayload, causal: Option<MessageId>, supply: Supply) returns (r: SendResult)
      requires Valid()
      modifies this, connections
      ensures Valid() && connections == old(connections)
      ensures (forall c | c in connections :: !(old(c.stateValue) == Live && c.identity.actor == actor)) ==>
                r == SendRejected(SendNotLive) && forall c | c in connections :: c.View() == old(c.View())
      ensures forall c | c in connections && old(c.stateValue) == Live && c.identity.actor == actor ::
                (c.View(), r) == G.Send(old(c.View()), payload, causal, supply)
                && forall d | d in connections && d != c :: d.View() == old(d.View())
    {
      LiveIsListed(actor);
      if actor !in liveByActor { return SendRejected(SendNotLive); }
      r := liveByActor[actor].Send(payload, causal, supply);
    }

    /** The live connection of an actor is the one its map holds. */
    lemma LiveIsListed(actor: ActorId)
      requires Valid()
      ensures actor in liveByActor ==> liveByActor[actor] in connections
      ensures forall c | c in connections ::
                c.stateValue == Live && c.identity.actor == actor <==> actor in liveByActor && liveByActor[actor] == c
    {
      var known := Snapshot().known;
      forall c | c in connections ensures known[c] == Entry(c.identity, c.stateValue) {}
      if actor in liveByActor { assert liveByActor[actor] in known; }
    }
  }

  class GatewayConnection {
    const identity: Identity
    const gateway: HostGateway
    var stateValue: ConnectionState
    var nextInboundSequence: int
    var nextOutboundSequence: int
    var pendingCommands: map<MessageId, ServerMessage>
    ghost var sent: seq<ServerMessage>
    ghost var delivered: seq<Delivery>

    constructor (identity: Identity, gateway: HostGateway)
      ensures this.identity == identity && this.gateway == gateway && View() == Opened(identity)
    {
      this.identity := identity;
      this.gateway := gateway;
      stateValue, nextInboundSequence, nextOutboundSequence, pendingCommands := Pending, 0, 0, map[];
      sent, delivered := [], [];
    }

    ghost function View(): Gateway
      reads this
    {
      Gateway(identity, stateValue, nextInboundSequence, nextOutboundSequence, pendingCommands, sent, delivered)
    }

    ghost predicate Registered()
      reads gateway, gateway.connections`stateValue
    {
      gateway.Valid() && this in gateway.connections
    }

    /** Fails this connection once. */
    method FailConnection()
      requires Registered()
      modifies this`stateValue, this`pendingCommands
      modifies gateway`pendingByActor, gateway`pendingByHost, gateway`liveByActor, gateway`liveByHost
      ensures Registered() && View() == Fail(old(View()))
      ensures gateway.Snapshot() == Moved(old(gateway.Snapshot()), this, identity, old(stateValue), Failed)
    {
      ghost var before := gateway.Snapshot();
      if stateValue == Failed { return; }
      Leave();
      FailingKeeps(before, this);
    }

    /** What failing does to the fields and to the registry. */
    method Leave()
      requires this in gateway.connections && stateValue != Failed
      modifies this`stateValue, this`pendingCommands
      modifies gateway`pendingByActor, gateway`pendingByHost, gateway`liveByActor, gateway`liveByHost
      ensures View() == Fail(old(View())) && gateway.Snapshot() == Failing(old(gateway.Snapshot()), this, identity)
    {
      ghost var before := gateway.Snapshot();
      stateValue := Failed;
      pendingCommands := map[];
      gateway.Remove(this);
      assert gateway.Snapshot().known == before.known[this := Entry(identity, Failed)];
    }

    /** Subscribing may throw, and the listener may fire while it runs; either way the connection fails. */
    method ObserveTransportFailures(observed: bool, failsMeanwhile: bool)
      requires Registered()
      modifies this`stateValue, this`pendingCommands
      modifies gateway`pendingByActor, gateway`pendingByHost, gateway`liveByActor, gateway`liveByHost
      ensures Registered() && View() == if observed && !failsMeanwhile then old(View()) else Fail(old(View()))
    {
      if failsMeanwhile { FailConnection(); }
      if !observed { FailConnection(); }
    }

    /** The part of a write that touches only the connection itself. */
    method PutOnWire(payload: ServerPayload, causal: Option<MessageId>, track: bool, supply: Supply) returns (r: SendResult)
      modifies this`nextOutboundSequence, this`pendingCommands, this`sent
      ensures gateway.Snapshot() == old(gateway.Snapshot()) && (old(Registered()) ==> Registered())
      ensures supply.NoEnvelope? || old(nextOutboundSequence) > MAX_SAFE_INTEGER ==>
                r == SendTransportFailed && View() == old(View()).(nextOutbound := old(nextOutboundSequence) + 1)
      ensures supply.Envelope? && old(nextOutboundSequence) <= MAX_SAFE_INTEGER ==>
                (View(), r) == G.Write(old(View()), payload, causal, track, supply)
    {
      var senderSequence := nextOutboundSequence;
      nextOutboundSequence := nextOutboundSequence + 1;
      if supply.NoEnvelope? || senderSequence > MAX_SAFE_INTEGER { return SendTransportFailed; }
      var message := Message(supply.id, causal, senderSequence, GENERATION, payload);
      sent := sent + [message];
      if track { pendingCommands := pendingCommands[message.id := message]; }
      return Sent(message);
    }

    method Write(payload: ServerPayload, causal: Option<MessageId>, track: bool, supply: Supply) returns (r: SendResult)
      requires Registered()
      modifies this`stateValue, this`nextOutboundSequence, this`pendingCommands, this`sent
      modifies gateway`pendingByActor, gateway`pendingByHost, gateway`liveByActor, gateway`liveByHost
      ensures Registered() && gateway.Snapshot() == Moved(old(gateway.Snapshot()), this, identity, old(stateValue), stateValue)
      ensures (View(), r) == G.Write(old(View()), payload, causal, track, supply)
    {
      r := PutOnWire(payload, causal, track, supply);
      if r == SendTransportFailed { FailConnection(); }
    }

    method Send(payload: ServerPayload, causal: Option<MessageId>, supply: Supply) returns (r: SendResult)
      requires Registered()
      modifies this
      modifies gateway`pendingByActor, gateway`pendingByHost, gateway`liveByActor, gateway`liveByHost
      ensures Registered() && gateway.Snapshot() == Moved(old(gateway.Snapshot()), this, identity, old(stateValue), stateValue)
      ensures (View(), r) == G.Send(old(View()), payload, causal, supply)
    {
      if stateValue == Failed { return SendRejected(SendFailed); }
      if stateValue != Live { return SendRejected(SendNotLive); }
      if !MatchesOutbound(identity, payload) { return SendRejected(SendIdentityMismatch); }
      r := Write(payload, causal, true, supply);
    }

    method Receive(input: Option<HostMessage>, supply: Supply, sinkOk: bool) returns (r: InboundResult)
      requires Registered()
      modifies this
      modifies gateway`pendingByActor, gateway`pendingByHost, gateway`liveByActor, gateway`liveByHost
      ensures Registered() && gateway.Snapshot() == Moved(old(gateway.Snapshot()), this, identity, old(stateValue), stateValue)
      ensures (View(), r) == G.Receive(old(View()), input, supply, sinkOk)
    {
      if stateValue == Failed { return Rejected(InFailedState); }
      if input.None? {
        FailConnection();
        return Rejected(DecodeFailed);
      }
      var message := input.value;
      if message.generation != GENERATION {
        FailConnection();
        return Rejected(GenerationMismatch);
      }
      if message.sequence < nextInboundSequence {
        FailConnection();
        return Rejected(SequenceStale);
      }
      if message.sequence > nextInboundSequence {
        FailConnection();
        return Rejected(SequenceGap);
      }
      if stateValue == Pending { r := ReceiveHello(message, supply); } else { r := ReceiveLive(message, supply, sinkOk); }
    }

    method ReceiveHello(message: HostMessage, supply: Supply) returns (r: InboundResult)
      requires Registered() && stateValue == Pending
      modifies this
      modifies gateway`pendingByActor, gateway`pendingByHost, gateway`liveByActor, gateway`liveByHost
      ensures Registered() && gateway.Snapshot() == Moved(old(gateway.Snapshot()), this, identity, old(stateValue), stateValue)
      ensures (View(), r) == G.ReceiveHello(old(View()), message, supply)
    {
      if !message.payload.HostHello? {
        FailConnection();
        return Rejected(WrongFirstPayload);
      }
      if message.payload.identity != identity {
        FailConnection();
        return Rejected(InboundIdentityMismatch);
      }
      var acknowledgement := Write(ServerAck(message.id), Some(message.id), false, supply);
      if !acknowledgement.Sent? { return TransportFailed; }
      GoLive();
      return HelloRegistered(acknowledgement.message);
    }

    /** The hello was acknowledged. */
    method GoLive()
      requires Registered() && stateValue == Pending
      modifies this`stateValue, this`nextInboundSequence
      modifies gateway`pendingByActor, gateway`pendingByHost, gateway`liveByActor, gateway`liveByHost
      ensures Registered() && gateway.Snapshot() == Committed(old(gateway.Snapshot()), this, identity)
      ensures View() == old(View()).(state := Live, nextInbound := old(nextInboundSequence) + 1)
    {
      gateway.CommitLive(this);
      if stateValue == Failed {
        assert false;      // "Host connection registration failed."
      }
      nextInboundSequence := nextInboundSequence + 1;
    }

    method ReceiveLive(message: HostMessage, supply: Supply, sinkOk: bool) returns (r: InboundResult)
      requires Registered() && stateValue == Live
      modifies this
      modifies gateway`pendingByActor, gateway`pendingByHost, gateway`liveByActor, gateway`liveByHost
      ensures Registered() && gateway.Snapshot() == Moved(old(gateway.Snapshot()), this, identity, old(stateValue), stateValue)
      ensures (View(), r) == G.ReceiveLive(old(View()), message, supply, sinkOk)
    {
      if message.payload.HostHello? {
        FailConnection();
        return Rejected(DuplicateHello);
      }
      if !MatchesPostHello(identity, message.payload) {
        FailConnection();
        return Rejected(InboundIdentityMismatch);
      }
      if message.payload.HostAck? {
        r := TakeAcknowledgement(message.payload.acknowledged);
        return;
      }
      var acknowledgement := Write(ServerAck(message.id), Some(message.id), false, supply);
      if !acknowledgement.Sent? { return TransportFailed; }
      r := DeliverFact(message, sinkOk);
    }

    /** The fact was acknowledged: it goes to the sink. */
    method DeliverFact(message: HostMessage, sinkOk: bool) returns (r: InboundResult)
      requires Registered() && stateValue == Live
      modifies this`stateValue, this`nextInboundSequence, this`pendingCommands, this`delivered
      modifies gateway`pendingByActor, gateway`pendingByHost, gateway`liveByActor, gateway`liveByHost
      ensures Registered() && gateway.Snapshot() == Moved(old(gateway.Snapshot()), this, identity, Live, stateValue)
      ensures var taken := old(View()).(nextInbound := old(nextInboundSequence) + 1);
              (View(), r) == if sinkOk then (taken.(delivered := taken.delivered + [Delivery(message, |taken.sent|)]), FactDelivered(message))
                             else (Fail(taken), FactSinkFailed)
    {
      TakeFact(message, sinkOk);
      if !sinkOk {
        FailConnection();
        return FactSinkFailed;
      }
      return FactDelivered(message);
    }

    method TakeAcknowledgement(id: MessageId) returns (r: InboundResult)
      modifies this`nextInboundSequence, this`pendingCommands
      ensures gateway.Snapshot() == old(gateway.Snapshot()) && (old(Registered()) ==> Registered())
      ensures View() == old(View()).(nextInbound := old(nextInboundSequence) + 1, pendingCommands := old(pendingCommands) - {id})
      ensures r == if id in old(pendingCommands) then Acknowledged(id) else AckIgnored(id)
    {
      nextInboundSequence := nextInboundSequence + 1;
      var known := id in pendingCommands;
      pendingCommands := pendingCommands - {id};
      return if known then Acknowledged(id) else AckIgnored(id);
    }

    method TakeFact(message: HostMessage, sinkOk: bool)
      modifies this`nextInboundSequence, this`delivered
      ensures gateway.Snapshot() == old(gateway.Snapshot()) && (old(Registered()) ==> Registered())
      ensures View() == old(View()).(nextInbound := old(nextInboundSequence) + 1,
                                     delivered := if sinkOk then old(delivered) + [Delivery(message, |sent|)] else old(delivered))
    {
      nextInboundSequence := nextInboundSequence + 1;
      if sinkOk { delivered := delivered + [Delivery(message, |sent|)]; }
    }
  }
}
