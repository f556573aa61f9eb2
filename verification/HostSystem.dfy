/** The whole Host protocol: a gateway connection, two channels, the host's connection, its command
    processor and its supervisor.

    Every run of the system is a run of the link and a run of the supervisor at once, so what holds
    in their runs holds here; what the processor emits is what the host writes. */
module HostSystem {
  import opened HostMessages
  import opened GatewayEndpoint
  import opened HostEndpoint
  import Link = HostLink
  import LinkRuns = HostLinkRuns
  import Sup = Supervisor
  import SupRuns = SupervisorRuns
  import opened SupervisorReplies
  import opened SupervisorEmissions
  import opened Options

  datatype System = System(link: Link.Link, process: Sup.Process)

  function Booted(identity: Identity, adapter: int): System {
    System(Link.Connected(identity), Sup.Born(identity, adapter))
  }

  datatype Event =
    | Outside(ofLink: Link.LinkEvent)                       // server, gateway, host start, transport failures
    | ToHost(ackSupply: Supply, env: Sup.Env, supply: Supply)  // the next message reaches the host
    | Inside(ofProcess: Sup.Event, supply: Supply)           // a promise settles or a job runs

  predicate Enabled(s: System, e: Event) {
    match e
    case Outside(le) => !le.HostReceives? && !le.HostEmits? && Link.Enabled(s.link, le)
    case ToHost(_, _, _) => s.link.toHost != []
    case Inside(pe, _) => !pe.Command? && Sup.Enabled(s.process, pe)
  }

  /** The sink accepted the acknowledgement of command `m`. */
  predicate Acknowledges(l: Link.Link, ackSupply: Supply)
    requires l.toHost != []
  {
    var (h, r) := ReceiveHost(l.host, Some(l.toHost[0]));
    r.HostAccepted? && !r.message.payload.ServerAck?
    && SendHost(h, HostAck(r.message.id), Some(r.message.id), ackSupply).1 == HostSent
  }

  /** The host's connection after the processor handed it what it emitted in this step. */
  function Said(h: Host, before: seq<Sup.Emission>, after: seq<Sup.Emission>, supply: Supply): Host {
    if |before| < |after| then SendHost(h, after[|before|].payload, Some(after[|before|].causal), supply).0 else h
  }

  function Forward(l: Link.Link, before: seq<Sup.Emission>, after: seq<Sup.Emission>, supply: Supply): Link.Link {
    Link.WithHost(l, Said(l.host, before, after, supply))
  }

  function Step(s: System, e: Event): System
    requires Enabled(s, e)
  {
    match e
    case Outside(le) => s.(link := Link.LinkStep(s.link, le))
    case ToHost(ackSupply, env, supply) =>
      var taken := Link.LinkStep(s.link, Link.HostReceives(ackSupply));
      if Acknowledges(s.link, ackSupply) then
        var p := Sup.Dispatch(s.process, s.link.toHost[0], env);
        System(Forward(taken, s.process.emitted, p.emitted, supply), p)
      else s.(link := taken)
    case Inside(pe, supply) =>
      var p := Sup.Step(s.process, pe);
      System(Forward(s.link, s.process.emitted, p.emitted, supply), p)
  }

  // ---------------------------------------------------------------- the host's side of a step

  /** `receive` and the processing of what it accepts, on the host alone. */
  function TakeIn(h: Host, p: Sup.Process, input: Option<ServerMessage>, ackSupply: Supply, env: Sup.Env, supply: Supply): (Host, Sup.Process) {
    var (taken, r) := ReceiveHost(h, input);
    if !r.HostAccepted? || r.message.payload.ServerAck? then (taken, p)
    else
      var (acked, sent) := SendHost(taken, HostAck(r.message.id), Some(r.message.id), ackSupply);
      if sent != HostSent then (acked, p)
      else
        var p' := Sup.Dispatch(p, r.message, env);
        (Said(acked, p.emitted, p'.emitted, supply), p')
  }

  /** A promise settles or a job runs, on the host alone. */
  function ActIn(h: Host, p: Sup.Process, pe: Sup.Event, supply: Supply): (Host, Sup.Process)
    requires Sup.Enabled(p, pe)
  {
    var p' := Sup.Step(p, pe);
    (Said(h, p.emitted, p'.emitted, supply), p')
  }

  /** What a step of the system does to the host is its own receipt and processing. */
  lemma StepOnHost(s: System, e: Event)
    requires Enabled(s, e)
    ensures e.ToHost? ==>
              (Step(s, e).link.host, Step(s, e).process) == TakeIn(s.link.host, s.process, Some(s.link.toHost[0]), e.ackSupply, e.env, e.supply)
    ensures e.Inside? ==> (Step(s, e).link.host, Step(s, e).process) == ActIn(s.link.host, s.process, e.ofProcess, e.supply)
  {}

  // ---------------------------------------------------------------- coupling

  function Ids(commands: seq<ServerMessage>): (r: seq<MessageId>)
    ensures |r| == |commands| && forall i | 0 <= i < |r| :: r[i] == commands[i].id
  {
    seq(|commands|, i requires 0 <= i < |commands| => commands[i].id)
  }

  /** `m` is on the wire what `e` was to the processor. */
  predicate Carries(m: HostMessage, e: Sup.Emission) {
    m.correlation == Some(e.causal) && m.payload == e.payload
  }

  ghost predicate WroteWhatWasEmitted(s: System) {
    var facts := Facts(s.link.host.wrote);
    && |facts| <= |s.process.emitted|
    && (s.link.host.state != HostFailed ==> |facts| == |s.process.emitted|)
    && (forall i | 0 <= i < |facts| :: Carries(facts[i], s.process.emitted[i]))
  }

  /** The commands dispatched are those acknowledged, and the facts written are those emitted. */
  ghost predicate Coupled(s: System) {
    && LinkRuns.Reachable(s.link) && SupRuns.Reachable(s.process) && Owns(s.process)
    && s.process.identity == s.link.host.identity
    && AckedIds(s.link.host.wrote) == Ids(s.process.commands)
    && WroteWhatWasEmitted(s)
    && (s.link.host.state == NotStarted ==> s.process.emitted == [] && s.process.commands == [])
  }

  /** Sending a fact writes it, or fails the connection; no acknowledgement is written. */
  lemma SendingAFact(h: Host, payload: HostPayload, causal: MessageId, supply: Supply)
    requires IsFact(payload)
    ensures var h' := SendHost(h, payload, Some(causal), supply).0;
            && AckedIds(h'.wrote) == AckedIds(h.wrote) && h'.identity == h.identity
            && (h'.state == NotStarted <==> h.state == NotStarted)
            && (if h.state == HostLive && h'.state == HostLive
                then |Facts(h'.wrote)| == |Facts(h.wrote)| + 1 && Facts(h.wrote) <= Facts(h'.wrote)
                     && Carries(Facts(h'.wrote)[|Facts(h.wrote)|], Sup.Emission(causal, payload))
                else Facts(h'.wrote) == Facts(h.wrote) && (h'.state == HostFailed || h'.state == h.state == NotStarted))
  {
    var h' := SendHost(h, payload, Some(causal), supply).0;
    if |h'.wrote| > |h.wrote| { HostListsSnoc(h.wrote, h'.wrote[|h.wrote|]); }
  }

  lemma ForwardIsALinkStep(l: Link.Link, p: Sup.Process, p': Sup.Process, supply: Supply)
    requires LinkRuns.Reachable(l) && EmitsAtMostOnce(p, p') && Owns(p')
    requires p'.identity == l.host.identity && AckedIds(l.host.wrote) == Ids(p'.commands)
    ensures LinkRuns.Reachable(Forward(l, p.emitted, p'.emitted, supply))
    ensures |p.emitted| < |p'.emitted| ==> IsFact(p'.emitted[|p.emitted|].payload)
  {
    if |p.emitted| < |p'.emitted| {
      var m := p'.emitted[|p.emitted|];
      assert m in p'.emitted && MayEmit(p', m.causal, m.payload);
      KnownIsAcked(p'.commands, m.causal);
      LinkRuns.ReachableSteps(l, Link.HostEmits(m.payload, Some(m.causal), supply));
    } else {
      assert Forward(l, p.emitted, p'.emitted, supply) == l;
    }
  }

  /** Handing one more emission to the link is a step of the link, and keeps the coupling. */
  lemma ForwardKeeps(l: Link.Link, p: Sup.Process, p': Sup.Process, supply: Supply)
    requires LinkRuns.Reachable(l) && EmitsAtMostOnce(p, p') && Owns(p')
    requires p'.identity == l.host.identity && AckedIds(l.host.wrote) == Ids(p'.commands)
    requires WroteWhatWasEmitted(System(l, p))
    requires l.host.state == NotStarted ==> p'.emitted == []
    ensures var l' := Forward(l, p.emitted, p'.emitted, supply);
            && LinkRuns.Reachable(l') && WroteWhatWasEmitted(System(l', p'))
            && AckedIds(l'.host.wrote) == AckedIds(l.host.wrote) && l'.host.identity == l.host.identity
            && (l'.host.state == NotStarted <==> l.host.state == NotStarted)
  {
    ForwardIsALinkStep(l, p, p', supply);
    ForwardWrites(l, p, p', supply);
  }

  lemma ForwardWrites(l: Link.Link, p: Sup.Process, p': Sup.Process, supply: Supply)
    requires EmitsAtMostOnce(p, p') && (|p.emitted| < |p'.emitted| ==> IsFact(p'.emitted[|p.emitted|].payload))
    requires WroteWhatWasEmitted(System(l, p)) && (l.host.state == NotStarted ==> p'.emitted == [])
    ensures var l' := Forward(l, p.emitted, p'.emitted, supply);
            && WroteWhatWasEmitted(System(l', p'))
            && AckedIds(l'.host.wrote) == AckedIds(l.host.wrote) && l'.host.identity == l.host.identity
            && (l'.host.state == NotStarted <==> l.host.state == NotStarted)
  {
    if |p.emitted| < |p'.emitted| {
      var m := p'.emitted[|p.emitted|];
      SendingAFact(l.host, m.payload, m.causal, supply);
    }
  }

  lemma KnownIsAcked(commands: seq<ServerMessage>, c: MessageId)
    requires KnownId(commands, c)
    ensures c in Ids(commands)
  {
    var m :| m in commands && m.id == c;
    var i :| 0 <= i < |commands| && commands[i] == m;
    assert Ids(commands)[i] == c;
  }

  lemma OutsideKeeps(s: System, le: Link.LinkEvent)
    requires Coupled(s) && Enabled(s, Outside(le))
    ensures Coupled(Step(s, Outside(le)))
  {
    LinkRuns.ReachableKeeps(s.link);
    LinkRuns.ReachableSteps(s.link, le);
    OutsideOnHost(s.link, le);
  }

  /** Nothing from outside makes the host write a fact or an acknowledgement. */
  lemma OutsideOnHost(l: Link.Link, le: Link.LinkEvent)
    requires Link.HostNumbers(l.host) && Link.Enabled(l, le) && !le.HostReceives? && !le.HostEmits?
    ensures var h, h' := l.host, Link.LinkStep(l, le).host;
            && Facts(h'.wrote) == Facts(h.wrote) && AckedIds(h'.wrote) == AckedIds(h.wrote) && h'.identity == h.identity
            && (h'.state != HostFailed ==> h.state != HostFailed) && (h'.state == NotStarted ==> h.state == NotStarted)
  {
    if le.HostStarts? && l.host.state == NotStarted {
      var h := Start(l.host, le.supply).0;
      if h.wrote != [] { HostListsSnoc([], h.wrote[0]); assert h.wrote == [] + [h.wrote[0]]; }
    }
  }

  /** Taking a message leaves the facts written alone, and adds its id to the acknowledged ones
      exactly when the acknowledgement went out. */
  lemma TakenAcks(l: Link.Link, ackSupply: Supply)
    requires l.toHost != []
    ensures var taken := Link.LinkStep(l, Link.HostReceives(ackSupply));
            && Facts(taken.host.wrote) == Facts(l.host.wrote) && taken.host.identity == l.host.identity
            && AckedIds(taken.host.wrote) == AckedIds(l.host.wrote) + (if Acknowledges(l, ackSupply) then [l.toHost[0].id] else [])
            && (taken.host.state != l.host.state ==> l.host.state == HostLive && taken.host.state == HostFailed)
            && (Acknowledges(l, ackSupply) ==> l.host.state == HostLive && !l.toHost[0].payload.ServerAck?)
  {
    var taken := Link.LinkStep(l, Link.HostReceives(ackSupply));
    if Acknowledges(l, ackSupply) {
      HostListsSnoc(l.host.wrote, taken.host.wrote[|l.host.wrote|]);
    }
  }

  /** A command that reaches a live host was never acknowledged before. */
  lemma NextCommandIsNew(l: Link.Link, ackSupply: Supply)
    requires LinkRuns.Reachable(l) && l.toHost != [] && Acknowledges(l, ackSupply)
    ensures l.toHost[0].id !in AckedIds(l.host.wrote)
  {
    TakenAcks(l, ackSupply);
    var taken := Link.LinkStep(l, Link.HostReceives(ackSupply));
    LinkRuns.ReachableSteps(l, Link.HostReceives(ackSupply));
    LinkRuns.AcknowledgedOnce(taken);
    var acked := AckedIds(l.host.wrote);
    assert AckedIds(taken.host.wrote)[|acked|] == l.toHost[0].id;
    assert forall i | 0 <= i < |acked| :: AckedIds(taken.host.wrote)[i] == acked[i];
  }

  lemma ToHostKeeps(s: System, ackSupply: Supply, env: Sup.Env, supply: Supply)
    requires Coupled(s) && s.link.toHost != []
    ensures Coupled(Step(s, ToHost(ackSupply, env, supply)))
  {
    var taken := Link.LinkStep(s.link, Link.HostReceives(ackSupply));
    LinkRuns.ReachableKeeps(s.link);
    LinkRuns.ReachableSteps(s.link, Link.HostReceives(ackSupply));
    TakenAcks(s.link, ackSupply);
    if Acknowledges(s.link, ackSupply) {
      NextCommandIsNew(s.link, ackSupply);
      DispatchedKeeps(s, taken, s.link.toHost[0], env, supply);
    }
  }

  lemma DispatchedKeeps(s: System, taken: Link.Link, m: ServerMessage, env: Sup.Env, supply: Supply)
    requires Coupled(s) && LinkRuns.Reachable(taken)
    requires Facts(taken.host.wrote) == Facts(s.link.host.wrote) && taken.host.identity == s.link.host.identity
    requires taken.host.state == s.link.host.state == HostLive || taken.host.state == HostFailed
    requires AckedIds(taken.host.wrote) == AckedIds(s.link.host.wrote) + [m.id]
    requires m.id !in AckedIds(s.link.host.wrote) && !m.payload.ServerAck?
    ensures var p := Sup.Dispatch(s.process, m, env);
            Coupled(System(Forward(taken, s.process.emitted, p.emitted, supply), p))
  {
    var p := Sup.Dispatch(s.process, m, env);
    forall c | c in s.process.commands ensures c.id != m.id {
      var i :| 0 <= i < |s.process.commands| && s.process.commands[i] == c;
      assert Ids(s.process.commands)[i] == c.id;
    }
    assert p == Sup.Step(s.process, Sup.Command(m, env));
    ProcessSteps(s.process, Sup.Command(m, env));
    assert Ids(s.process.commands + [m]) == Ids(s.process.commands) + [m.id];
    ForwardKeeps(taken, s.process, p, supply);
  }

  /** A step of the supervisor within the system. */
  lemma ProcessSteps(p: Sup.Process, pe: Sup.Event)
    requires SupRuns.Reachable(p) && Owns(p) && Sup.Enabled(p, pe)
    ensures var p' := Sup.Step(p, pe);
            && SupRuns.Reachable(p') && Owns(p') && EmitsAtMostOnce(p, p')
            && p'.commands == if pe.Command? then p.commands + [pe.message] else p.commands
  {
    SupRuns.ReachableSteps(p, pe);
    SupRuns.ReachableIsSound(p);
    StepOwns(p, pe);
    StepEmits(p, pe);
    CommandsUnchanged(p, pe);
  }

  lemma EmissionsNeedCommands(p: Sup.Process)
    requires Owns(p) && p.emitted != []
    ensures p.commands != []
  {
    assert MayEmit(p, p.emitted[0].causal, p.emitted[0].payload);
  }

  lemma InsideKeeps(s: System, pe: Sup.Event, supply: Supply)
    requires Coupled(s) && Enabled(s, Inside(pe, supply))
    ensures Coupled(Step(s, Inside(pe, supply)))
  {
    var p := Sup.Step(s.process, pe);
    ProcessSteps(s.process, pe);
    if p.emitted != [] { EmissionsNeedCommands(p); }
    ForwardKeeps(s.link, s.process, p, supply);
  }

  // ---------------------------------------------------------------- whole runs

  ghost predicate Reaches(identity: Identity, adapter: int, events: seq<Event>, s: System) {
    if events == [] then s == Booted(identity, adapter)
    else
      var n := |events| - 1;
      exists before: System :: Reaches(identity, adapter, events[..n], before) && Enabled(before, events[n]) && s == Step(before, events[n])
  }

  lemma BootedIsCoupled(identity: Identity, adapter: int)
    ensures Coupled(Booted(identity, adapter))
  {
    assert LinkRuns.Reaches(identity, [], Link.Connected(identity));
    assert SupRuns.Reaches(identity, adapter, [], Sup.Born(identity, adapter));
  }

  /** Every run of the system is at once a run of the link and a run of the supervisor. */
  lemma {:induction false} EveryRunIsCoupled(identity: Identity, adapter: int, events: seq<Event>, s: System)
    requires Reaches(identity, adapter, events, s)
    ensures Coupled(s)
  {
    if events == [] {
      BootedIsCoupled(identity, adapter);
    } else {
      var n := |events| - 1;
      var before :| Reaches(identity, adapter, events[..n], before) && Enabled(before, events[n]) && s == Step(before, events[n]);
      EveryRunIsCoupled(identity, adapter, events[..n], before);
      match events[n]
      case Outside(le) => OutsideKeeps(before, le);
      case ToHost(ackSupply, env, supply) => ToHostKeeps(before, ackSupply, env, supply);
      case Inside(pe, supply) => InsideKeeps(before, pe, supply);
    }
  }

  // ---------------------------------------------------------------- what reaches the server

  predicate IsWireReply(m: HostMessage, c: MessageId) {
    m.correlation == Some(c) && IsFact(m.payload) && !m.payload.SessionReport?
  }

  function WireReplies(facts: seq<HostMessage>, c: MessageId): nat {
    if facts == [] then 0
    else WireReplies(facts[..|facts| - 1], c) + (if IsWireReply(facts[|facts| - 1], c) then 1 else 0)
  }

  lemma {:induction false} WireRepliesAreSent(facts: seq<HostMessage>, emitted: seq<Sup.Emission>, c: MessageId)
    requires |facts| == |emitted| && forall i | 0 <= i < |facts| :: Carries(facts[i], emitted[i]) && IsFact(facts[i].payload)
    ensures WireReplies(facts, c) == SentReplies(emitted, c)
  {
    if facts != [] {
      WireRepliesAreSent(facts[..|facts| - 1], emitted[..|emitted| - 1], c);
    }
  }

  lemma FactsAreFacts(ms: seq<HostMessage>)
    ensures forall i | 0 <= i < |Facts(ms)| :: IsFact(Facts(ms)[i].payload)
  {
    FactsAre(ms);
    assert forall i | 0 <= i < |Facts(ms)| :: Facts(ms)[i] in Facts(ms);
  }

  /** While the host's connection is live: each start and each initialize command it took has exactly
      one reply among the facts written, unless the reply is still queued or its work outstanding. */
  lemma OneReplyOnTheWire(identity: Identity, adapter: int, events: seq<Event>, s: System, m: ServerMessage)
    requires Reaches(identity, adapter, events, s) && s.link.host.state == HostLive
    requires m in s.process.commands && IsRequest(m.payload)
    ensures WireReplies(Facts(s.link.host.wrote), m.id) + QueuedReplies(s.process.jobs, m.id) + Outstanding(s.process, m.id) == 1
  {
    EveryRunIsCoupled(identity, adapter, events, s);
    FactsAreFacts(s.link.host.wrote);
    WireRepliesAreSent(Facts(s.link.host.wrote), s.process.emitted, m.id);
    SupRuns.OneReplyEach(s.process, m);
  }

  /** What the sink received is a prefix of what the processor emitted. */
  lemma DeliveredWereEmitted(identity: Identity, adapter: int, events: seq<Event>, s: System)
    requires Reaches(identity, adapter, events, s)
    ensures |s.link.gateway.delivered| <= |s.process.emitted|
    ensures forall i | 0 <= i < |s.link.gateway.delivered| :: Carries(s.link.gateway.delivered[i].fact, s.process.emitted[i])
  {
    EveryRunIsCoupled(identity, adapter, events, s);
    LinkRuns.FactsAreDeliveredInOrder(s.link);
    var delivered, facts := Link.DeliveredFacts(s.link.gateway.delivered), Facts(s.link.host.wrote);
    assert forall i | 0 <= i < |delivered| :: delivered[i] == facts[i];
  }

  /** End to end: the server's sink sees a session report before the reply to the same command, and a
      result that names the reported session; it never sees a second reply to a request. */
  lemma SinkSeesReportsFirstAndAgreeing(identity: Identity, adapter: int, events: seq<Event>, s: System, i: nat, k: nat)
    requires Reaches(identity, adapter, events, s)
    requires i < |s.link.gateway.delivered| && k < |s.link.gateway.delivered|
    requires var a, b := s.link.gateway.delivered[i].fact, s.link.gateway.delivered[k].fact;
             a.correlation == b.correlation && a.payload.SessionReport? && !b.payload.SessionReport?
    ensures i < k
    ensures var a, b := s.link.gateway.delivered[i].fact, s.link.gateway.delivered[k].fact;
            b.payload.ResultReport? ==> b.payload.result.session == Some(a.payload.session)
  {
    EveryRunIsCoupled(identity, adapter, events, s);
    DeliveredWereEmitted(identity, adapter, events, s);
    SupRuns.ReportsPrecedeAndAgree(s.process, i, k);
  }

  lemma {:induction false} TwoRepliesCount(emitted: seq<Sup.Emission>, i: nat, k: nat, c: MessageId)
    requires i < k < |emitted| && IsReply(emitted[i], c) && IsReply(emitted[k], c)
    ensures SentReplies(emitted, c) >= 2
  {
    var front := emitted[..|emitted| - 1];
    if k < |front| { TwoRepliesCount(front, i, k, c); } else { OneReplyCounts(front, i, c); }
  }

  lemma {:induction false} OneReplyCounts(emitted: seq<Sup.Emission>, i: nat, c: MessageId)
    requires i < |emitted| && IsReply(emitted[i], c)
    ensures SentReplies(emitted, c) >= 1
  {
    if i < |emitted| - 1 { OneReplyCounts(emitted[..|emitted| - 1], i, c); }
  }

  lemma SinkSeesOneReply(identity: Identity, adapter: int, events: seq<Event>, s: System, m: ServerMessage, i: nat, k: nat)
    requires Reaches(identity, adapter, events, s) && m in s.process.commands && IsRequest(m.payload)
    requires i < |s.link.gateway.delivered| && k < |s.link.gateway.delivered|
    requires IsWireReply(s.link.gateway.delivered[i].fact, m.id) && IsWireReply(s.link.gateway.delivered[k].fact, m.id)
    ensures i == k
  {
    EveryRunIsCoupled(identity, adapter, events, s);
    DeliveredWereEmitted(identity, adapter, events, s);
    SupRuns.OneReplyEach(s.process, m);
    if i < k { TwoRepliesCount(s.process.emitted, i, k, m.id); }
    if k < i { TwoRepliesCount(s.process.emitted, k, i, m.id); }
  }
}
