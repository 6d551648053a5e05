/** From committed tables to Envoy: what port agreement means for the listeners and clusters built from a node's state. */
module EnvoyAgreement {
  import opened KeyedLists
  import opened RouteTypes
  import opened Rib
  import opened PortAllocator
  import opened BusSpec
  import opened PortAgreement
  import opened PortDraws
  import opened XdsResources

  /** A partitioned pool never gives one port to two keys. */
  lemma PoolIsInjective(pool: Pool, ports: set<int>)
    requires Partitions(pool, ports)
    ensures InjectivePorts(pool.taken)
  {
  }

  /** The pairs Envoy is told to build for a node state. */
  function PairsOf(res: Resolver, s: BusState, bind: string): seq<Pair>
    requires s.pool.Some?
  {
    Pairs(res, s.table.local, s.table.internal, s.pool.value.taken, bind)
  }

  /** Every ingress listener sits on the port stamped on its channel, every egress listener on the port stamped on its route. */
  ghost predicate OnStampedPorts(res: Resolver, s: BusState, bind: string)
    requires s.pool.Some?
  {
    && (forall ch, p :: ch in s.table.local && Ported(ch) && LocalPair(res, ch, s.pool.value.taken, bind) == Some(p) ==>
          Some(p.listener.port) == ch.envoyPort)
    && (forall r, p :: r in s.table.internal && RemotePair(res, r, s.pool.value.taken, bind) == Some(p) ==>
          Some(p.listener.port) == r.ch.envoyPort)
  }

  lemma StampedPortsServed(cfg: NodeConfig, s: BusState, ports: set<int>, res: Resolver, bind: string)
    requires PortsInOrder(cfg, s, ports)
    ensures OnStampedPorts(res, s, bind)
  {
    forall ch, p | ch in s.table.local && Ported(ch) && LocalPair(res, ch, s.pool.value.taken, bind) == Some(p)
      ensures Some(p.listener.port) == ch.envoyPort
    {
      assert PortOf(s.pool.value, ch.name) == ch.envoyPort;
    }
  }

  /** After any port-safe run of a fresh node the listeners built from its state sit on the stamped ports, and no two of
      different names share one, exactly as long as no built channel is named like a built egress key. */
  lemma RunServesStampedPorts(cfg: NodeConfig, entries: seq<PortEntry>, inputs: seq<Input>, res: Resolver, bind: string)
    requires PortSafe(cfg, BusState(EmptyTable, Some(Created(entries, [])), map[]), inputs)
    ensures var s := RunBus(cfg, BusState(EmptyTable, Some(Created(entries, [])), map[]), inputs);
            && s.pool.Some? && OnStampedPorts(res, s, bind)
            && (PortsSeparate(PairsOf(res, s, bind)) <==> KeysApart(res, s.table.local, s.table.internal, s.pool.value.taken, bind))
  {
    var ports := set p | p in Expand(entries);
    FreshNodeInOrder(cfg, entries);
    RunKeepsPorts(cfg, BusState(EmptyTable, Some(Created(entries, [])), map[]), inputs, ports);
    var s := RunBus(cfg, BusState(EmptyTable, Some(Created(entries, [])), map[]), inputs);
    StampedPortsServed(cfg, s, ports, res, bind);
    PoolIsInjective(s.pool.value, ports);
    ListenersBindDifferentPorts(res, s.table.local, s.table.internal, s.pool.value.taken, bind);
  }

  /** The remote cluster behind an egress listener points at the listener's own port number on the peer's address: stamping
      has replaced the port the peer advertised. */
  lemma RemoteClusterUsesEgressPort(cfg: NodeConfig, s: BusState, ports: set<int>, res: Resolver, bind: string, r: InternalRoute)
    requires PortsInOrder(cfg, s, ports) && r in s.table.internal && RemotePair(res, r, s.pool.value.taken, bind).Some?
    ensures var p := RemotePair(res, r, s.pool.value.taken, bind).value;
            p.cluster.port == p.listener.port && Some(p.cluster.address) == r.peer.envoyAddress
  {
    StampedPortsServed(cfg, s, ports, res, bind);
  }

  /** What `RemotePair` builds for `r` once a dispatch has stamped it with `port`, or left it alone. */
  function Served(res: Resolver, r: InternalRoute, port: Option<int>, ports: Allocations, bind: string): Option<Pair> {
    RemotePair(res, if port.Some? then WithPort(r, port.value) else r, ports, bind)
  }

  /** So the port a peer advertised is reached only by accident: a route whose egress key keeps its port is served at that
      port, and one whose key is new at the port it draws from the queue; the advertised port is reached exactly when it
      is that one. Without a port left there is no listener. */
  lemma AdvertisedPortReached(self: string, a: Action, t: RouteTable, clock: int, pool: Pool, ports: set<int>, r: InternalRoute, res: Resolver, bind: string)
    requires Partitions(pool, ports) && r in Planned(self, a, t, clock).next.internal
    requires Ported(r.ch) && GivenText(r.peer.envoyAddress)
    ensures var plan := Planned(self, a, t, clock);
            var port := Drawn(plan, pool, EgressKeyOf(r));
            var pair := Served(res, r, port, PoolAfter(plan, pool).taken, bind);
            && (if port.Some? then WithPort(r, port.value) else r) in WithPorts(plan, pool).next.internal
            && (pair.Some? <==> port.Some? && port.value != 0)
            && (pair.Some? ==> (pair.value.cluster.port == r.ch.envoyPort.value <==> port == r.ch.envoyPort))
  {
    var plan := Planned(self, a, t, clock);
    var l := StampedLocals(plan, pool);
    FreedPartitions(plan, pool, ports);
    LocalStampPartitions(plan.next.local, LocalStamp([], Freed(plan, pool), map[]), ports);
    var e := StampedEgresses(plan, pool);
    EgressStampIs(plan.next.internal, l.ports, r, ports);
    StampEgressesAgree(plan.next.internal, EgressStamp([], l.ports, map[]), ports);
    PortIsDrawn(self, a, t, clock, pool, ports, EgressKeyOf(r));
    var port := Drawn(plan, pool, EgressKeyOf(r));
    assert EgressKeyOf(r) in e.egress <==> port.Some? by {
      var x := if EgressKeyOf(r) in e.egress then WithPort(r, e.egress[EgressKeyOf(r)]) else r;
      assert x in e.routes && EgressKeyOf(x) == EgressKeyOf(r);
    }
  }
}
