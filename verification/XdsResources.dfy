/** xDS snapshots: listeners and clusters built from routes and port allocations. */
module XdsResources {
  import opened KeyedLists
  import opened RouteTypes
  import opened BusSpec

  datatype Codec = Auto | Http2

  /** The HTTP connection manager of a listener; the single route of its virtual host goes to `cluster`. */
  datatype HttpManager = HttpManager(statPrefix: string, codec: Option<Codec>, webSocket: bool, virtualHost: string, cluster: string, noTimeout: bool)

  datatype Listener =
    | HttpListener(name: string, address: string, port: int, manager: HttpManager)
    | TcpListener(name: string, address: string, port: int, statPrefix: string, cluster: string)

  datatype DiscoveryType = Static | StrictDns

  datatype Cluster = Cluster(name: string, kind: DiscoveryType, v4Only: bool, http2: bool, loadName: string, address: string, port: int)

  datatype Snapshot = Snapshot(version: nat, listeners: seq<Listener>, clusters: seq<Cluster>)

  /** URL parsing and IP detection, left abstract. */
  datatype Resolver = Resolver(parse: string -> (string, int), isIp: string -> bool)

  function IngressName(channel: string): string { "ingress_" + channel }
  function LocalClusterName(channel: string): string { "local_" + channel }
  function RemoteClusterName(channel: string, peer: string): string { "remote_" + channel + "_via_" + peer }

  function StartsWith(s: string, prefix: string): bool { prefix <= s }

  function Manager(statPrefix: string, cluster: string, p: Protocol): HttpManager {
    HttpManager(statPrefix,
                if p.HttpGrpc? then Some(Http2) else None,
                p.HttpGraphql? || p.HttpGql?,
                if StartsWith(statPrefix, "ingress") then "local" else "remote",
                cluster,
                p.HttpGraphql? || p.HttpGql? || p.HttpGrpc?)
  }

  function BuildListener(name: string, cluster: string, address: string, port: int, p: Protocol): Listener {
    if p.Tcp? then TcpListener(name, address, port, name, cluster)
    else HttpListener(name, address, port, Manager(name, cluster, p))
  }

  function BuildCluster(res: Resolver, name: string, address: string, port: int, p: Protocol): Cluster {
    var kind := if res.isIp(address) then Static else StrictDns;
    Cluster(name, kind, kind.StrictDns?, p.HttpGrpc?, name, address, port)
  }

  /** The cluster a listener sends its traffic to. */
  function Target(l: Listener): string {
    match l case HttpListener(_, _, _, m) => m.cluster case TcpListener(_, _, _, _, c) => c
  }

  type Allocations = map<string, int>

  /** The allocated port, if there is one and it is not 0. */
  function PortFor(ports: Allocations, key: string): Option<int> {
    if key in ports && ports[key] != 0 then Some(ports[key]) else None
  }

  predicate GivenText(s: Option<string>) { s.Some? && s.value != "" }

  /** A listener and the cluster built with it. */
  datatype Pair = Pair(listener: Listener, cluster: Cluster)

  function LocalPair(res: Resolver, ch: DataChannel, ports: Allocations, bind: string): Option<Pair> {
    if !GivenText(ch.endpoint) || PortFor(ports, ch.name).None? then None
    else
      var (address, port) := res.parse(ch.endpoint.value);
      Some(Pair(BuildListener(IngressName(ch.name), LocalClusterName(ch.name), bind, PortFor(ports, ch.name).value, ch.protocol),
                BuildCluster(res, LocalClusterName(ch.name), address, port, ch.protocol)))
  }

  function RemotePair(res: Resolver, r: InternalRoute, ports: Allocations, bind: string): Option<Pair> {
    if !Ported(r.ch) || !GivenText(r.peer.envoyAddress) || PortFor(ports, EgressKeyOf(r)).None? then None
    else
      Some(Pair(BuildListener(EgressKeyOf(r), RemoteClusterName(r.ch.name, r.peer.name), bind, PortFor(ports, EgressKeyOf(r)).value, r.ch.protocol),
                BuildCluster(res, RemoteClusterName(r.ch.name, r.peer.name), r.peer.envoyAddress.value, r.ch.envoyPort.value, r.ch.protocol)))
  }

  function LocalPairs(res: Resolver, chs: seq<DataChannel>, ports: Allocations, bind: string): seq<Pair> {
    if |chs| == 0 then []
    else
      var rest := LocalPairs(res, chs[1..], ports, bind);
      match LocalPair(res, chs[0], ports, bind) case Some(p) => [p] + rest case None => rest
  }

  function RemotePairs(res: Resolver, rs: seq<InternalRoute>, ports: Allocations, bind: string): seq<Pair> {
    if |rs| == 0 then []
    else
      var rest := RemotePairs(res, rs[1..], ports, bind);
      match RemotePair(res, rs[0], ports, bind) case Some(p) => [p] + rest case None => rest
  }

  function Pairs(res: Resolver, chs: seq<DataChannel>, rs: seq<InternalRoute>, ports: Allocations, bind: string): seq<Pair> {
    LocalPairs(res, chs, ports, bind) + RemotePairs(res, rs, ports, bind)
  }

  function Listeners(ps: seq<Pair>): seq<Listener> { seq(|ps|, i requires 0 <= i < |ps| => ps[i].listener) }
  function Clusters(ps: seq<Pair>): seq<Cluster> { seq(|ps|, i requires 0 <= i < |ps| => ps[i].cluster) }

  lemma ListenersAppend(ps: seq<Pair>, qs: seq<Pair>)
    ensures Listeners(ps + qs) == Listeners(ps) + Listeners(qs) && Clusters(ps + qs) == Clusters(ps) + Clusters(qs)
  {
  }

  /** Local routes become ingress listeners and local clusters. */
  method BuildLocal(res: Resolver, local: seq<DataChannel>, ports: Allocations, bind: string)
    returns (listeners: seq<Listener>, clusters: seq<Cluster>)
    ensures listeners == Listeners(LocalPairs(res, local, ports, bind)) && clusters == Clusters(LocalPairs(res, local, ports, bind))
  {
    listeners, clusters := [], [];
    ghost var built: seq<Pair> := [];
    for n := 0 to |local|
      invariant listeners == Listeners(built) && clusters == Clusters(built)
      invariant built + LocalPairs(res, local[n..], ports, bind) == LocalPairs(res, local, ports, bind)
    {
      ghost var rest := LocalPairs(res, local[n + 1..], ports, bind);
      assert local[n..][1..] == local[n + 1..];
      var ch := local[n];
      ghost var pair := LocalPair(res, ch, ports, bind);
      if GivenText(ch.endpoint) && PortFor(ports, ch.name).Some? {
        var port := PortFor(ports, ch.name).value;
        var (address, upstream) := res.parse(ch.endpoint.value);
        if ch.protocol.Tcp? {
          listeners := listeners + [TcpListener(IngressName(ch.name), bind, port, IngressName(ch.name), LocalClusterName(ch.name))];
        } else {
          listeners := listeners + [HttpListener(IngressName(ch.name), bind, port, Manager(IngressName(ch.name), LocalClusterName(ch.name), ch.protocol))];
        }
        clusters := clusters + [BuildCluster(res, LocalClusterName(ch.name), address, upstream, ch.protocol)];
        assert built + ([pair.value] + rest) == built + [pair.value] + rest;
        ListenersAppend(built, [pair.value]);
        built := built + [pair.value];
      }
    }
  }

  /** Internal routes become egress listeners and remote clusters. */
  method BuildRemote(res: Resolver, internal: seq<InternalRoute>, ports: Allocations, bind: string)
    returns (listeners: seq<Listener>, clusters: seq<Cluster>)
    ensures listeners == Listeners(RemotePairs(res, internal, ports, bind)) && clusters == Clusters(RemotePairs(res, internal, ports, bind))
  {
    listeners, clusters := [], [];
    ghost var built: seq<Pair> := [];
    for n := 0 to |internal|
      invariant listeners == Listeners(built) && clusters == Clusters(built)
      invariant built + RemotePairs(res, internal[n..], ports, bind) == RemotePairs(res, internal, ports, bind)
    {
      ghost var rest := RemotePairs(res, internal[n + 1..], ports, bind);
      assert internal[n..][1..] == internal[n + 1..];
      var r := internal[n];
      ghost var pair := RemotePair(res, r, ports, bind);
      if Ported(r.ch) && GivenText(r.peer.envoyAddress) && PortFor(ports, EgressKeyOf(r)).Some? {
        var port, name := PortFor(ports, EgressKeyOf(r)).value, RemoteClusterName(r.ch.name, r.peer.name);
        if r.ch.protocol.Tcp? {
          listeners := listeners + [TcpListener(EgressKeyOf(r), bind, port, EgressKeyOf(r), name)];
        } else {
          listeners := listeners + [HttpListener(EgressKeyOf(r), bind, port, Manager(EgressKeyOf(r), name, r.ch.protocol))];
        }
        clusters := clusters + [BuildCluster(res, name, r.peer.envoyAddress.value, r.ch.envoyPort.value, r.ch.protocol)];
        assert built + ([pair.value] + rest) == built + [pair.value] + rest;
        ListenersAppend(built, [pair.value]);
        built := built + [pair.value];
      }
    }
  }

  // -------------------------------------------------------------------------
  // What is built, in Envoy's terms
  // -------------------------------------------------------------------------

  /** Listeners and clusters for a protocol: raw TCP, or HTTP with the options the protocol needs. */
  predicate Fits(l: Listener, c: Cluster, p: Protocol, side: string) {
    && (l.TcpListener? <==> p == Tcp)
    && (l.TcpListener? ==> l.statPrefix == l.name)
    && (l.HttpListener? ==>
          && l.manager.statPrefix == l.name && l.manager.virtualHost == side
          && l.manager.codec == (if p == HttpGrpc then Some(Http2) else None)
          && (l.manager.webSocket <==> p in {HttpGraphql, HttpGql})
          && (l.manager.noTimeout <==> p in {HttpGraphql, HttpGql, HttpGrpc}))
    && (c.http2 <==> p == HttpGrpc)
  }

  /** The listener binds `bind` at `port` and sends to the cluster, which resolves `address` as its kind demands. */
  predicate Connects(res: Resolver, l: Listener, c: Cluster, bind: string, port: int, address: string, upstream: int) {
    && l.address == bind && l.port == port
    && c.name == c.loadName && c.name == (if l.HttpListener? then l.manager.cluster else l.cluster)
    && c.address == address && c.port == upstream
    && (c.kind == Static <==> res.isIp(address)) && (c.v4Only <==> c.kind == StrictDns)
  }

  /** Ingress: the allocated port in front, the channel's own endpoint behind. */
  predicate Ingress(res: Resolver, l: Listener, c: Cluster, ch: DataChannel, ports: Allocations, bind: string) {
    && ch.endpoint.Some? && ch.name in ports
    && l.name == "ingress_" + ch.name && c.name == "local_" + ch.name
    && Fits(l, c, ch.protocol, "local")
    && Connects(res, l, c, bind, ports[ch.name], res.parse(ch.endpoint.value).0, res.parse(ch.endpoint.value).1)
  }

  /** Egress: the allocated port in front, the peer's Envoy at the route's port behind. */
  predicate Egress(res: Resolver, l: Listener, c: Cluster, r: InternalRoute, ports: Allocations, bind: string) {
    var key := "egress_" + r.ch.name + "_via_" + r.peer.name;
    && r.peer.envoyAddress.Some? && r.ch.envoyPort.Some? && key in ports
    && l.name == key && c.name == "remote_" + r.ch.name + "_via_" + r.peer.name
    && Fits(l, c, r.ch.protocol, "remote")
    && Connects(res, l, c, bind, ports[key], r.peer.envoyAddress.value, r.ch.envoyPort.value)
  }

  predicate Usable(ports: Allocations, key: string) { key in ports && ports[key] != 0 }

  /** The channels that can be served, in order: with an endpoint, and an allocated port other than 0. */
  function ServableLocals(chs: seq<DataChannel>, ports: Allocations): seq<DataChannel> {
    if |chs| == 0 then []
    else (if chs[0].endpoint.Some? && chs[0].endpoint.value != "" && Usable(ports, chs[0].name) then [chs[0]] else [])
         + ServableLocals(chs[1..], ports)
  }

  /** The learned routes that can be served, in order: with a port, the peer's address, and an allocated egress port. */
  function ServableRoutes(rs: seq<InternalRoute>, ports: Allocations): seq<InternalRoute> {
    if |rs| == 0 then []
    else
      var r := rs[0];
      (if r.ch.envoyPort.Some? && r.ch.envoyPort.value != 0 && r.peer.envoyAddress.Some? && r.peer.envoyAddress.value != ""
          && Usable(ports, "egress_" + r.ch.name + "_via_" + r.peer.name) then [r] else [])
      + ServableRoutes(rs[1..], ports)
  }

  lemma LocalServes(res: Resolver, ch: DataChannel, ports: Allocations, bind: string)
    ensures var p := LocalPair(res, ch, ports, bind);
            && (p.Some? <==> ch.endpoint.Some? && ch.endpoint.value != "" && Usable(ports, ch.name))
            && (p.Some? ==> Ingress(res, p.value.listener, p.value.cluster, ch, ports, bind))
  {
    assert StartsWith(IngressName(ch.name), "ingress");
  }

  lemma RemoteServes(res: Resolver, r: InternalRoute, ports: Allocations, bind: string)
    ensures var p := RemotePair(res, r, ports, bind);
            && (p.Some? <==> r.ch.envoyPort.Some? && r.ch.envoyPort.value != 0 && r.peer.envoyAddress.Some? && r.peer.envoyAddress.value != ""
                             && Usable(ports, "egress_" + r.ch.name + "_via_" + r.peer.name))
            && (p.Some? ==> Egress(res, p.value.listener, p.value.cluster, r, ports, bind))
  {
    assert EgressKeyOf(r)[0] == 'e' && "ingress"[0] == 'i';
    assert !StartsWith(EgressKeyOf(r), "ingress");
  }

  lemma PairsCons(p: Pair, ps: seq<Pair>)
    ensures Listeners([p] + ps) == [p.listener] + Listeners(ps) && Clusters([p] + ps) == [p.cluster] + Clusters(ps)
  {
  }

  lemma LocalsServedCons(l: Listener, c: Cluster, ch: DataChannel, ls: seq<Listener>, cs: seq<Cluster>, chs: seq<DataChannel>,
                         res: Resolver, ports: Allocations, bind: string)
    requires Ingress(res, l, c, ch, ports, bind) && LocalsServed(ls, cs, res, chs, ports, bind)
    ensures LocalsServed([l] + ls, [c] + cs, res, [ch] + chs, ports, bind)
  {
    forall i | 0 <= i < |chs| + 1 ensures Ingress(res, ([l] + ls)[i], ([c] + cs)[i], ([ch] + chs)[i], ports, bind) {
      if i > 0 {
        assert ([l] + ls)[i] == ls[i - 1] && ([c] + cs)[i] == cs[i - 1] && ([ch] + chs)[i] == chs[i - 1];
      }
    }
  }

  lemma RoutesServedCons(l: Listener, c: Cluster, r: InternalRoute, ls: seq<Listener>, cs: seq<Cluster>, rs: seq<InternalRoute>,
                         res: Resolver, ports: Allocations, bind: string)
    requires Egress(res, l, c, r, ports, bind) && RoutesServed(ls, cs, res, rs, ports, bind)
    ensures RoutesServed([l] + ls, [c] + cs, res, [r] + rs, ports, bind)
  {
    forall i | 0 <= i < |rs| + 1 ensures Egress(res, ([l] + ls)[i], ([c] + cs)[i], ([r] + rs)[i], ports, bind) {
      if i > 0 {
        assert ([l] + ls)[i] == ls[i - 1] && ([c] + cs)[i] == cs[i - 1] && ([r] + rs)[i] == rs[i - 1];
      }
    }
  }

  lemma {:induction false} LocalsServe(res: Resolver, chs: seq<DataChannel>, ports: Allocations, bind: string)
    ensures var ps, served := LocalPairs(res, chs, ports, bind), ServableLocals(chs, ports);
            LocalsServed(Listeners(ps), Clusters(ps), res, served, ports, bind)
  {
    if |chs| > 0 {
      LocalServes(res, chs[0], ports, bind);
      LocalsServe(res, chs[1..], ports, bind);
      var first := LocalPair(res, chs[0], ports, bind);
      var rest := LocalPairs(res, chs[1..], ports, bind);
      if first.Some? {
        PairsCons(first.value, rest);
        LocalsServedCons(first.value.listener, first.value.cluster, chs[0], Listeners(rest), Clusters(rest), ServableLocals(chs[1..], ports), res, ports, bind);
      } else {
        assert [] + ServableLocals(chs[1..], ports) == ServableLocals(chs[1..], ports);
      }
    }
  }

  lemma {:induction false} RoutesServe(res: Resolver, rs: seq<InternalRoute>, ports: Allocations, bind: string)
    ensures var ps, served := RemotePairs(res, rs, ports, bind), ServableRoutes(rs, ports);
            RoutesServed(Listeners(ps), Clusters(ps), res, served, ports, bind)
  {
    if |rs| > 0 {
      RemoteServes(res, rs[0], ports, bind);
      RoutesServe(res, rs[1..], ports, bind);
      var first := RemotePair(res, rs[0], ports, bind);
      var rest := RemotePairs(res, rs[1..], ports, bind);
      if first.Some? {
        PairsCons(first.value, rest);
        RoutesServedCons(first.value.listener, first.value.cluster, rs[0], Listeners(rest), Clusters(rest), ServableRoutes(rs[1..], ports), res, ports, bind);
      } else {
        assert [] + ServableRoutes(rs[1..], ports) == ServableRoutes(rs[1..], ports);
      }
    }
  }

  ghost predicate LocalsServed(ls: seq<Listener>, cs: seq<Cluster>, res: Resolver, chs: seq<DataChannel>, ports: Allocations, bind: string) {
    |ls| == |cs| == |chs| && forall i :: 0 <= i < |chs| ==> Ingress(res, ls[i], cs[i], chs[i], ports, bind)
  }

  ghost predicate RoutesServed(ls: seq<Listener>, cs: seq<Cluster>, res: Resolver, rs: seq<InternalRoute>, ports: Allocations, bind: string) {
    |ls| == |cs| == |rs| && forall i :: 0 <= i < |rs| ==> Egress(res, ls[i], cs[i], rs[i], ports, bind)
  }

  /** First the servable channels, then the servable learned routes, each with its listener and cluster at one place. */
  ghost predicate Serves(s: Snapshot, res: Resolver, local: seq<DataChannel>, internal: seq<InternalRoute>, ports: Allocations, bind: string) {
    var n := |ServableLocals(local, ports)|;
    && |s.listeners| == |s.clusters| && n <= |s.listeners|
    && LocalsServed(s.listeners[..n], s.clusters[..n], res, ServableLocals(local, ports), ports, bind)
    && RoutesServed(s.listeners[n..], s.clusters[n..], res, ServableRoutes(internal, ports), ports, bind)
  }

  method BuildXdsSnapshot(res: Resolver, local: seq<DataChannel>, internal: seq<InternalRoute>, ports: Allocations, bind: string, version: nat)
    returns (s: Snapshot)
    ensures var ps := Pairs(res, local, internal, ports, bind); s == Snapshot(version, Listeners(ps), Clusters(ps))
    ensures Serves(s, res, local, internal, ports, bind) && s.version == version
    ensures forall i :: 0 <= i < |s.listeners| ==> Target(s.listeners[i]) == s.clusters[i].name == s.clusters[i].loadName
  {
    var localListeners, localClusters := BuildLocal(res, local, ports, bind);
    var remoteListeners, remoteClusters := BuildRemote(res, internal, ports, bind);
    ListenersAppend(LocalPairs(res, local, ports, bind), RemotePairs(res, internal, ports, bind));
    PairsTarget(res, local, internal, ports, bind);
    assert forall i :: 0 <= i < |Pairs(res, local, internal, ports, bind)| ==> WellPaired(Pairs(res, local, internal, ports, bind)[i]);
    LocalsServe(res, local, ports, bind);
    RoutesServe(res, internal, ports, bind);
    s := Snapshot(version, localListeners + remoteListeners, localClusters + remoteClusters);
    assert s.listeners[..|localListeners|] == localListeners && s.listeners[|localListeners|..] == remoteListeners;
    assert s.clusters[..|localListeners|] == localClusters && s.clusters[|localListeners|..] == remoteClusters;
  }

  ghost predicate WellPaired(p: Pair) {
    Target(p.listener) == p.cluster.name == p.cluster.loadName
  }

  lemma {:induction false} LocalPairsFrom(res: Resolver, chs: seq<DataChannel>, ports: Allocations, bind: string, p: Pair)
    ensures p in LocalPairs(res, chs, ports, bind) <==> exists ch :: ch in chs && LocalPair(res, ch, ports, bind) == Some(p)
  {
    if |chs| > 0 {
      LocalPairsFrom(res, chs[1..], ports, bind, p);
      assert forall ch :: ch in chs <==> ch == chs[0] || ch in chs[1..];
    }
  }

  lemma {:induction false} RemotePairsFrom(res: Resolver, rs: seq<InternalRoute>, ports: Allocations, bind: string, p: Pair)
    ensures p in RemotePairs(res, rs, ports, bind) <==> exists r :: r in rs && RemotePair(res, r, ports, bind) == Some(p)
  {
    if |rs| > 0 {
      RemotePairsFrom(res, rs[1..], ports, bind, p);
      assert forall r :: r in rs <==> r == rs[0] || r in rs[1..];
    }
  }

  lemma PairsTarget(res: Resolver, chs: seq<DataChannel>, rs: seq<InternalRoute>, ports: Allocations, bind: string)
    ensures forall i :: 0 <= i < |Pairs(res, chs, rs, ports, bind)| ==> WellPaired(Pairs(res, chs, rs, ports, bind)[i])
  {
    forall p | p in Pairs(res, chs, rs, ports, bind) ensures WellPaired(p) {
      LocalPairsFrom(res, chs, ports, bind, p);
      RemotePairsFrom(res, rs, ports, bind, p);
    }
  }

  // -------------------------------------------------------------------------
  // Which listeners can share a port
  // -------------------------------------------------------------------------

  ghost predicate InjectivePorts(ports: Allocations) {
    forall k, l :: k in ports && l in ports && ports[k] == ports[l] ==> k == l
  }

  /** No channel with an ingress listener is named like the egress key of a route with an egress listener. */
  ghost predicate KeysApart(res: Resolver, chs: seq<DataChannel>, rs: seq<InternalRoute>, ports: Allocations, bind: string) {
    forall ch, r :: ch in chs && r in rs && LocalPair(res, ch, ports, bind).Some? && RemotePair(res, r, ports, bind).Some? ==>
      ch.name != EgressKeyOf(r)
  }

  ghost predicate PortsSeparate(ps: seq<Pair>) {
    forall p, q :: p in ps && q in ps && p.listener.name != q.listener.name ==> p.listener.port != q.listener.port
  }

  /** Where a pair comes from fixes its listener's name and port. */
  lemma PairOrigin(res: Resolver, chs: seq<DataChannel>, rs: seq<InternalRoute>, ports: Allocations, bind: string, p: Pair) returns (key: string, local: bool)
    requires p in Pairs(res, chs, rs, ports, bind)
    ensures key in ports && p.listener.port == ports[key]
    ensures local ==> p.listener.name == IngressName(key) && exists ch :: ch in chs && ch.name == key && LocalPair(res, ch, ports, bind) == Some(p)
    ensures !local ==> p.listener.name == key && exists r :: r in rs && EgressKeyOf(r) == key && RemotePair(res, r, ports, bind) == Some(p)
  {
    LocalPairsFrom(res, chs, ports, bind, p);
    RemotePairsFrom(res, rs, ports, bind, p);
    if ch :| ch in chs && LocalPair(res, ch, ports, bind) == Some(p) {
      key, local := ch.name, true;
    } else {
      var r :| r in rs && RemotePair(res, r, ports, bind) == Some(p);
      key, local := EgressKeyOf(r), false;
    }
  }

  /** With an injective allocation map, differently named listeners bind different ports exactly when no built channel
      is named like a built egress key. */
  lemma ListenersBindDifferentPorts(res: Resolver, chs: seq<DataChannel>, rs: seq<InternalRoute>, ports: Allocations, bind: string)
    requires InjectivePorts(ports)
    ensures PortsSeparate(Pairs(res, chs, rs, ports, bind)) <==> KeysApart(res, chs, rs, ports, bind)
  {
    var ps := Pairs(res, chs, rs, ports, bind);
    if KeysApart(res, chs, rs, ports, bind) {
      forall p, q | p in ps && q in ps && p.listener.name != q.listener.name ensures p.listener.port != q.listener.port {
        var k, a := PairOrigin(res, chs, rs, ports, bind, p);
        var l, b := PairOrigin(res, chs, rs, ports, bind, q);
      }
    } else {
      var ch, r :| ch in chs && r in rs && LocalPair(res, ch, ports, bind).Some? && RemotePair(res, r, ports, bind).Some? && ch.name == EgressKeyOf(r);
      var p, q := LocalPair(res, ch, ports, bind).value, RemotePair(res, r, ports, bind).value;
      LocalPairsFrom(res, chs, ports, bind, p);
      RemotePairsFrom(res, rs, ports, bind, q);
      assert p in ps && q in ps && p.listener.port == q.listener.port;
      assert p.listener.name[0] == 'i' && q.listener.name[0] == 'e';
    }
  }
}
