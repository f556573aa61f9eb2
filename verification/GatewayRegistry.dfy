/** The four registry maps of `HostGateway` against the connections ever opened. */
module GatewayRegistry {
  import opened HostMessages
  import opened GatewayEndpoint

  datatype Entry = Entry(identity: Identity, state: ConnectionState)

  datatype Registry<C(==)> = Registry(
    known: map<C, Entry>,
    pendingByActor: map<ActorId, C>, pendingByHost: map<HostId, C>,
    liveByActor: map<ActorId, C>, liveByHost: map<HostId, C>)

  /** A pair of maps holds exactly the connections of one state, each under its own identity. */
  ghost predicate HoldsExactly<C>(known: map<C, Entry>, state: ConnectionState, byActor: map<ActorId, C>, byHost: map<HostId, C>) {
    && (forall a | a in byActor :: byActor[a] in known && known[byActor[a]].identity.actor == a && known[byActor[a]].state == state)
    && (forall h | h in byHost :: byHost[h] in known && known[byHost[h]].identity.host == h && known[byHost[h]].state == state)
    && (forall c | c in known && known[c].state == state ::
          && known[c].identity.actor in byActor && byActor[known[c].identity.actor] == c
          && known[c].identity.host in byHost && byHost[known[c].identity.host] == c)
  }

  /** At most one connection per actor and per host has not failed. */
  ghost predicate Exclusive<C>(known: map<C, Entry>) {
    forall c, d | c in known && d in known && known[c].state != Failed && known[d].state != Failed ::
      known[c].identity.actor == known[d].identity.actor || known[c].identity.host == known[d].identity.host ==> c == d
  }

  ghost predicate RegistryOk<C>(r: Registry<C>) {
    && HoldsExactly(r.known, Pending, r.pendingByActor, r.pendingByHost)
    && HoldsExactly(r.known, Live, r.liveByActor, r.liveByHost)
    && Exclusive(r.known)
  }

  predicate Occupied<C(==)>(r: Registry<C>, identity: Identity) {
    identity.actor in r.pendingByActor || identity.host in r.pendingByHost || identity.actor in r.liveByActor || identity.host in r.liveByHost
  }

  /** The gateway turns a connection away exactly when one that has not failed shares its actor or host. */
  lemma OccupiedIff<C>(r: Registry<C>, identity: Identity)
    requires RegistryOk(r)
    ensures Occupied(r, identity) <==>
            exists c | c in r.known :: r.known[c].state != Failed
              && (r.known[c].identity.actor == identity.actor || r.known[c].identity.host == identity.host)
  {
    if identity.actor in r.pendingByActor { assert r.pendingByActor[identity.actor] in r.known; }
    if identity.host in r.pendingByHost { assert r.pendingByHost[identity.host] in r.known; }
    if identity.actor in r.liveByActor { assert r.liveByActor[identity.actor] in r.known; }
    if identity.host in r.liveByHost { assert r.liveByHost[identity.host] in r.known; }
    if c :| c in r.known && r.known[c].state != Failed
            && (r.known[c].identity.actor == identity.actor || r.known[c].identity.host == identity.host) {
      assert r.known[c].state == Pending || r.known[c].state == Live;
    }
  }

  function Open<C(==)>(r: Registry<C>, c: C, identity: Identity): Registry<C> {
    r.(known := r.known[c := Entry(identity, Pending)],
       pendingByActor := r.pendingByActor[identity.actor := c], pendingByHost := r.pendingByHost[identity.host := c])
  }

  lemma OpenKeeps<C>(r: Registry<C>, c: C, identity: Identity)
    requires RegistryOk(r) && c !in r.known && !Occupied(r, identity)
    ensures RegistryOk(Open(r, c, identity))
  {
    OpenHolds(r, c, identity);
    OpenStaysExclusive(r, c, identity);
  }

  lemma OpenHolds<C>(r: Registry<C>, c: C, identity: Identity)
    requires RegistryOk(r) && c !in r.known && !Occupied(r, identity)
    ensures var r' := Open(r, c, identity);
            HoldsExactly(r'.known, Pending, r'.pendingByActor, r'.pendingByHost) && HoldsExactly(r'.known, Live, r'.liveByActor, r'.liveByHost)
  {}

  lemma OpenStaysExclusive<C>(r: Registry<C>, c: C, identity: Identity)
    requires RegistryOk(r) && c !in r.known && !Occupied(r, identity)
    ensures Exclusive(r.known[c := Entry(identity, Pending)])
  {
    forall d | d in r.known && r.known[d].state != Failed
      ensures r.known[d].identity.actor != identity.actor && r.known[d].identity.host != identity.host
    {
      assert r.known[d].state == Pending || r.known[d].state == Live;
    }
  }

  /** `remove`: each entry goes only if it is this connection's. */
  function Without<C(==)>(m: map<int, C>, key: int, c: C): map<int, C> {
    if key in m && m[key] == c then m - {key} else m
  }

  function Removed<C(==)>(r: Registry<C>, c: C, identity: Identity): Registry<C> {
    r.(pendingByActor := Without(r.pendingByActor, identity.actor, c), pendingByHost := Without(r.pendingByHost, identity.host, c),
       liveByActor := Without(r.liveByActor, identity.actor, c), liveByHost := Without(r.liveByHost, identity.host, c))
  }

  function Failing<C(==)>(r: Registry<C>, c: C, identity: Identity): Registry<C> {
    Removed(r.(known := r.known[c := Entry(identity, Failed)]), c, identity)
  }

  lemma WithoutHolds<C>(known: map<C, Entry>, state: ConnectionState, byActor: map<ActorId, C>, byHost: map<HostId, C>, c: C)
    requires HoldsExactly(known, state, byActor, byHost) && c in known && state != Failed
    ensures HoldsExactly(known[c := Entry(known[c].identity, Failed)], state,
                         Without(byActor, known[c].identity.actor, c), Without(byHost, known[c].identity.host, c))
  {}

  /** A failing connection leaves the four maps, and every other connection's entries stay: a late
      failure never removes a successor. */
  lemma FailingKeeps<C>(r: Registry<C>, c: C)
    requires RegistryOk(r) && c in r.known
    ensures RegistryOk(Failing(r, c, r.known[c].identity))
    ensures OthersStay(r, Failing(r, c, r.known[c].identity), c)
  {
    WithoutHolds(r.known, Pending, r.pendingByActor, r.pendingByHost, c);
    WithoutHolds(r.known, Live, r.liveByActor, r.liveByHost, c);
  }

  ghost predicate OthersStay<C>(r: Registry<C>, r': Registry<C>, c: C) {
    && (forall a | a in r.pendingByActor && r.pendingByActor[a] != c :: a in r'.pendingByActor && r'.pendingByActor[a] == r.pendingByActor[a])
    && (forall h | h in r.pendingByHost && r.pendingByHost[h] != c :: h in r'.pendingByHost && r'.pendingByHost[h] == r.pendingByHost[h])
    && (forall a | a in r.liveByActor && r.liveByActor[a] != c :: a in r'.liveByActor && r'.liveByActor[a] == r.liveByActor[a])
    && (forall h | h in r.liveByHost && r.liveByHost[h] != c :: h in r'.liveByHost && r'.liveByHost[h] == r.liveByHost[h])
  }

  /** The guard under which `commitLive` would fail the connection instead. */
  predicate CommitRefused<C(==)>(r: Registry<C>, c: C, identity: Identity) {
    || identity.actor !in r.pendingByActor || r.pendingByActor[identity.actor] != c
    || identity.host !in r.pendingByHost || r.pendingByHost[identity.host] != c
    || identity.actor in r.liveByActor || identity.host in r.liveByHost
  }

  function Committed<C(==)>(r: Registry<C>, c: C, identity: Identity): Registry<C> {
    r.(known := r.known[c := Entry(identity, Live)],
       pendingByActor := r.pendingByActor - {identity.actor}, pendingByHost := r.pendingByHost - {identity.host},
       liveByActor := r.liveByActor[identity.actor := c], liveByHost := r.liveByHost[identity.host := c])
  }

  /** A pending connection is never refused, and going live keeps the maps in order. */
  lemma CommitKeeps<C>(r: Registry<C>, c: C)
    requires RegistryOk(r) && c in r.known && r.known[c].state == Pending
    ensures !CommitRefused(r, c, r.known[c].identity)
    ensures RegistryOk(Committed(r, c, r.known[c].identity))
    ensures OthersStay(r, Committed(r, c, r.known[c].identity), c)
  {
    var identity := r.known[c].identity;
    var r' := Committed(r, c, identity);
    forall d | d in r.known && r.known[d].state != Failed && d != c
      ensures r.known[d].identity.actor != identity.actor && r.known[d].identity.host != identity.host {}
    assert HoldsExactly(r'.known, Pending, r'.pendingByActor, r'.pendingByHost);
    assert HoldsExactly(r'.known, Live, r'.liveByActor, r'.liveByHost);
  }

  /** What becomes of the registry when connection `c` goes from one state to another. */
  function Moved<C(==)>(r: Registry<C>, c: C, identity: Identity, before: ConnectionState, after: ConnectionState): Registry<C> {
    if before == after then r
    else if after == Live then Committed(r, c, identity)
    else Failing(r, c, identity)
  }

  /** Whatever one connection does, the entries of the others stay. */
  lemma MovedKeeps<C>(r: Registry<C>, c: C, after: ConnectionState)
    requires RegistryOk(r) && c in r.known
    requires after == r.known[c].state || after == Failed || (after == Live && r.known[c].state == Pending)
    ensures var r' := Moved(r, c, r.known[c].identity, r.known[c].state, after);
            RegistryOk(r') && OthersStay(r, r', c)
  {
    FailingKeeps(r, c);
    if r.known[c].state == Pending { CommitKeeps(r, c); }
  }
}
