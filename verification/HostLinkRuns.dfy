/** What holds in every run of one gateway connection and its host. */
module HostLinkRuns {
  import opened HostMessages
  import opened GatewayEndpoint
  import opened HostEndpoint
  import opened HostLink

  /** `l` is reached from the start by `events`, each enabled when it happens. */
  ghost predicate Reaches(identity: Identity, events: seq<LinkEvent>, l: Link) {
    if events == [] then l == Connected(identity)
    else
      var n := |events| - 1;
      exists before: Link :: Reaches(identity, events[..n], before) && Enabled(before, events[n]) && l == LinkStep(before, events[n])
  }

  ghost predicate Reachable(l: Link) {
    exists identity, events :: Reaches(identity, events, l)
  }

  lemma {:induction false} EveryRunKeeps(identity: Identity, events: seq<LinkEvent>, l: Link)
    requires Reaches(identity, events, l)
    ensures Invariant(l)
  {
    if events != [] {
      var n := |events| - 1;
      var before :| Reaches(identity, events[..n], before) && Enabled(before, events[n]) && l == LinkStep(before, events[n]);
      EveryRunKeeps(identity, events[..n], before);
      LinkStepKeeps(before, events[n]);
    }
  }

  lemma ReachableKeeps(l: Link)
    requires Reachable(l)
    ensures Invariant(l)
  {
    var identity, events :| Reaches(identity, events, l);
    EveryRunKeeps(identity, events, l);
  }

  lemma ReachableSteps(l: Link, e: LinkEvent)
    requires Reachable(l) && Enabled(l, e)
    ensures Reachable(LinkStep(l, e))
  {
    var identity, events :| Reaches(identity, events, l);
    assert (events + [e])[..|events|] == events;
    assert Reaches(identity, events + [e], LinkStep(l, e));
  }

  /** No end that has not failed ever refuses a message: not for its sequence number, generation,
      identity, an unexpected hello or the lack of one. No acknowledgement is ignored. */
  lemma LiveEndsNeverReject(l: Link, supply: Supply, sinkOk: bool)
    requires Reachable(l)
    ensures l.gateway.state != Failed && l.toServer != [] ==>
              !GatewayTakes(l, supply, sinkOk).1.Rejected? && !GatewayTakes(l, supply, sinkOk).1.AckIgnored?
    ensures l.host.state != HostFailed && l.toHost != [] ==> HostTakes(l, supply).1 == HostAccepted(l.toHost[0])
  {
    ReachableKeeps(l);
    if l.gateway.state != Failed && l.toServer != [] { GatewayAccepts(l, supply, sinkOk); }
    if l.host.state != HostFailed && l.toHost != [] { HostAccepts(l, supply); }
  }

  /** Each channel holds consecutive numbers, from the receiver's next-inbound counter up to the
      sender's next-outbound counter. */
  lemma ChannelsAreConsecutive(l: Link)
    requires Reachable(l)
    ensures l.host.state != HostFailed ==>
              && (forall i | 0 <= i < |l.toHost| :: l.toHost[i].sequence == l.host.nextInbound + i)
              && (l.gateway.state != Failed ==> l.gateway.nextOutbound == l.host.nextInbound + |l.toHost|)
    ensures l.gateway.state != Failed ==>
              && (forall i | 0 <= i < |l.toServer| :: l.toServer[i].sequence == l.gateway.nextInbound + i)
              && (l.host.state != HostFailed ==> l.host.nextOutbound == l.gateway.nextInbound + |l.toServer|)
  {
    ReachableKeeps(l);
    NumbersInChannels(l);
  }

  lemma NumbersInChannels(l: Link)
    requires Channels(l) && GatewayNumbers(l.gateway) && HostNumbers(l.host)
    ensures l.host.state != HostFailed ==>
              && (forall i | 0 <= i < |l.toHost| :: l.toHost[i].sequence == l.host.nextInbound + i)
              && (l.gateway.state != Failed ==> l.gateway.nextOutbound == l.host.nextInbound + |l.toHost|)
    ensures l.gateway.state != Failed ==>
              && (forall i | 0 <= i < |l.toServer| :: l.toServer[i].sequence == l.gateway.nextInbound + i)
              && (l.host.state != HostFailed ==> l.host.nextOutbound == l.gateway.nextInbound + |l.toServer|)
  {}

  lemma {:induction false} CommandIdsSplit(a: seq<ServerMessage>, b: seq<ServerMessage>)
    ensures CommandIds(a + b) == CommandIds(a) + CommandIds(b)
  {
    if b == [] {
      assert a + b == a;
    } else {
      var front, last := b[..|b| - 1], b[|b| - 1];
      CommandIdsSplit(a, front);
      assert a + b == (a + front) + [last] && b == front + [last];
      CommandIdsSnoc(a + front, last);
    }
  }

  lemma {:induction false} AckedIdsSplit(a: seq<HostMessage>, b: seq<HostMessage>)
    ensures AckedIds(a + b) == AckedIds(a) + AckedIds(b)
  {
    if b == [] {
      assert a + b == a;
    } else {
      var front, last := b[..|b| - 1], b[|b| - 1];
      AckedIdsSplit(a, front);
      assert a + b == (a + front) + [last] && b == front + [last];
      HostListsSnoc(a + front, last);
    }
  }

  /** The ids sent are, in order: those whose acknowledgement the gateway took, those whose
      acknowledgement is under way, and those still on their way to the host. */
  lemma CommandsAreAckedOrInFlight(l: Link)
    requires Invariant(l) && l.gateway.state == Live && l.host.state == HostLive
    ensures CommandIds(l.gateway.sent)
            == AckedIds(l.host.wrote[..l.gateway.nextInbound]) + AckedIds(l.toServer) + CommandIds(l.toHost)
    ensures Distinct(CommandIds(l.gateway.sent))
  {
    SplitSent(l.gateway.sent, l.host.nextInbound);
    SplitWrote(l.host.wrote, l.gateway.nextInbound);
    CommandIdsDistinct(l.gateway.sent);
  }

  lemma SplitSent(ms: seq<ServerMessage>, n: nat)
    requires n <= |ms|
    ensures CommandIds(ms) == CommandIds(ms[..n]) + CommandIds(ms[n..])
  {
    assert ms == ms[..n] + ms[n..];
    CommandIdsSplit(ms[..n], ms[n..]);
  }

  lemma SplitWrote(ms: seq<HostMessage>, n: nat)
    requires n <= |ms|
    ensures AckedIds(ms) == AckedIds(ms[..n]) + AckedIds(ms[n..])
  {
    assert ms == ms[..n] + ms[n..];
    AckedIdsSplit(ms[..n], ms[n..]);
  }

  /** While both ends are live, the pending commands are the disjoint union of the commands still in
      the channel to the host and of the acknowledgements still in the channel back. */
  lemma PendingIsInFlight(l: Link)
    requires Reachable(l) && l.gateway.state == Live && l.host.state == HostLive
    ensures forall id :: id in l.gateway.pendingCommands <==> id in CommandIds(l.toHost) || id in AckedIds(l.toServer)
    ensures forall id :: !(id in CommandIds(l.toHost) && id in AckedIds(l.toServer))
    ensures Distinct(CommandIds(l.toHost)) && Distinct(AckedIds(l.toServer))
  {
    ReachableKeeps(l);
    CommandsAreAckedOrInFlight(l);
    DistinctPartsAreDisjoint(AckedIds(l.host.wrote[..l.gateway.nextInbound]), AckedIds(l.toServer), CommandIds(l.toHost));
    forall id ensures id in l.gateway.pendingCommands <==> id in CommandIds(l.toHost) || id in AckedIds(l.toServer) {
      PendingMeans(l, id);
    }
  }

  lemma DistinctPartsAreDisjoint(a: seq<MessageId>, b: seq<MessageId>, c: seq<MessageId>)
    requires Distinct(a + b + c)
    ensures forall id :: (id in a + b + c && id !in a) <==> id in b || id in c
    ensures forall id :: !(id in b && id in c)
    ensures Distinct(b) && Distinct(c)
  {
    var all := a + b + c;
    assert forall i | 0 <= i < |a| :: a[i] == all[i];
    assert forall i | 0 <= i < |b| :: b[i] == all[|a| + i];
    assert forall i | 0 <= i < |c| :: c[i] == all[|a| + |b| + i];
  }

  /** Over a whole run the host acknowledges each command at most once. */
  lemma AcknowledgedOnce(l: Link)
    requires Reachable(l)
    ensures Distinct(AckedIds(l.host.wrote))
  {
    ReachableKeeps(l);
    CommandIdsPrefix(l.gateway.sent, l.host.nextInbound);
    CommandIdsDistinct(l.gateway.sent);
    assert AckedIds(l.host.wrote) <= CommandIds(l.gateway.sent);
  }

  lemma {:induction false} FactsAscend(ms: seq<HostMessage>)
    requires forall i | 0 <= i < |ms| :: ms[i].sequence == i
    ensures forall i, j | 0 <= i < j < |Facts(ms)| :: Facts(ms)[i].sequence < Facts(ms)[j].sequence
    ensures forall m | m in Facts(ms) :: m.sequence < |ms|
  {
    if ms != [] {
      var front := ms[..|ms| - 1];
      FactsAscend(front);
      forall i | 0 <= i < |Facts(front)| ensures Facts(front)[i].sequence < |front| {
        assert Facts(front)[i] in Facts(front);
      }
    }
  }

  /** The sink's facts are an in-order, duplicate-free prefix of the facts the host wrote; each comes
      right after the gateway's own receipt for it; and a fact that names a command names one that
      was sent and no longer waits for its acknowledgement. */
  lemma FactsAreDeliveredInOrder(l: Link)
    requires Reachable(l)
    ensures DeliveredFacts(l.gateway.delivered) <= Facts(l.host.wrote)
    ensures forall i, j | 0 <= i < j < |l.gateway.delivered| ::
              l.gateway.delivered[i].fact.sequence < l.gateway.delivered[j].fact.sequence
    ensures forall d | d in l.gateway.delivered ::
              && 1 <= d.sentBefore <= |l.gateway.sent|
              && l.gateway.sent[d.sentBefore - 1].payload == ServerAck(d.fact.id)
    ensures forall d | d in l.gateway.delivered && d.fact.correlation.Some? ::
              d.fact.correlation.value in CommandIds(l.gateway.sent) && d.fact.correlation.value !in l.gateway.pendingCommands
  {
    ReachableKeeps(l);
    FactsAscend(l.host.wrote);
    var delivered, facts := DeliveredFacts(l.gateway.delivered), Facts(l.host.wrote);
    assert forall i | 0 <= i < |delivered| :: delivered[i] == facts[i];
  }
}
