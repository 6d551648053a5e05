/** The values of the v2 routing layer: data channels, peers, routes, tables, actions and plans. */
module RouteTypes {
  import opened KeyedLists

  datatype Protocol = Http | HttpGraphql | HttpGql | HttpGrpc | Tcp

  datatype Health = Up | Down

  /** A `number | null | undefined` field. */
  datatype Latency = Absent | Null | Millis(ms: int)

  datatype DataChannel = DataChannel(
    name: string,
    endpoint: Option<string>,
    protocol: Protocol,
    region: Option<string>,
    tags: Option<seq<string>>,
    envoyPort: Option<int>,
    envoyAddress: Option<string>,
    healthStatus: Option<Health>,
    responseTimeMs: Latency,
    lastChecked: Option<string>)

  datatype PeerInfo = PeerInfo(
    name: string,
    domains: seq<string>,
    endpoint: Option<string>,
    labels: Option<map<string, string>>,
    peerToken: Option<string>,
    envoyAddress: Option<string>)

  datatype ConnectionStatus = Initializing | Connected | Closed

  datatype PeerRecord = PeerRecord(
    info: PeerInfo,
    status: ConnectionStatus,
    lastConnected: int,
    holdTime: int,
    lastSent: int,
    lastReceived: int)

  datatype InternalRoute = InternalRoute(
    ch: DataChannel,
    peer: PeerInfo,
    nodePath: seq<string>,
    originNode: string,
    isStale: bool)

  /** `local.routes`, `internal.peers` and `internal.routes`. */
  datatype RouteTable = RouteTable(
    local: seq<DataChannel>,
    peers: seq<PeerRecord>,
    internal: seq<InternalRoute>)

  const EmptyTable := RouteTable([], [], [])

  datatype RouteKey = RouteKey(name: string, origin: string)

  function ChannelName(ch: DataChannel): string { ch.name }
  function PeerName(p: PeerRecord): string { p.info.name }
  function KeyOf(r: InternalRoute): RouteKey { RouteKey(r.ch.name, r.originNode) }
  function Via(r: InternalRoute): string { r.peer.name }

  datatype Verb = Add | Remove

  /** One entry of an update message. */
  datatype UpdateItem = UpdateItem(verb: Verb, route: DataChannel, nodePath: seq<string>, originNode: string)

  function ItemKey(u: UpdateItem): RouteKey { RouteKey(u.route.name, u.originNode) }

  datatype Action =
    | LocalPeerCreate(info: PeerInfo)
    | LocalPeerUpdate(info: PeerInfo)
    | LocalPeerDelete(name: string)
    | LocalRouteCreate(ch: DataChannel)
    | LocalRouteDelete(name: string)
    | LocalRouteHealthUpdate(name: string, health: Health, latency: Latency, checked: string)
    | InternalProtocolOpen(info: PeerInfo, offeredHoldTime: Option<int>)
    | InternalProtocolConnected(info: PeerInfo)
    | InternalProtocolClose(info: PeerInfo, code: int)
    | InternalProtocolUpdate(info: PeerInfo, items: seq<UpdateItem>)
    | InternalProtocolKeepalive(info: PeerInfo)
    | Tick(now: int)

  const NORMAL := 1
  const TRANSPORT_ERROR := 3

  const DEFAULT_HOLD_TIME := 90_000

  datatype PortOp = Allocated(key: string, port: int) | Released(key: string, port: int)

  /** A route in a change report: a local data channel or a route learned from a peer. */
  datatype Route = OfLocal(ch: DataChannel) | OfPeer(ir: InternalRoute)

  type RouteChange = Delta<Route>

  /** `changed` stands for `prevState !== newState`. */
  datatype PlanResult = PlanResult(
    prev: RouteTable,
    next: RouteTable,
    portOps: seq<PortOp>,
    changes: seq<RouteChange>,
    changed: bool)

  /** The changes that concern `local.routes`, in order. */
  function LocalDeltas(cs: seq<RouteChange>): seq<Delta<DataChannel>> {
    if |cs| == 0 then []
    else
      var rest := LocalDeltas(cs[1..]);
      match cs[0]
      case Added(OfLocal(ch)) => [Added(ch)] + rest
      case Updated(OfLocal(ch)) => [Updated(ch)] + rest
      case Removed(OfLocal(ch)) => [Removed(ch)] + rest
      case _ => rest
  }

  /** The changes that concern `internal.routes`, in order. */
  function PeerDeltas(cs: seq<RouteChange>): seq<Delta<InternalRoute>> {
    if |cs| == 0 then []
    else
      var rest := PeerDeltas(cs[1..]);
      match cs[0]
      case Added(OfPeer(r)) => [Added(r)] + rest
      case Updated(OfPeer(r)) => [Updated(r)] + rest
      case Removed(OfPeer(r)) => [Removed(r)] + rest
      case _ => rest
  }

  lemma {:induction false} PeerDeltasAppend(cs: seq<RouteChange>, ds: seq<RouteChange>)
    ensures PeerDeltas(cs + ds) == PeerDeltas(cs) + PeerDeltas(ds)
    ensures LocalDeltas(cs + ds) == LocalDeltas(cs) + LocalDeltas(ds)
  {
    if |cs| == 0 {
      assert cs + ds == ds;
    } else {
      assert (cs + ds)[1..] == cs[1..] + ds;
      PeerDeltasAppend(cs[1..], ds);
    }
  }

  function RemovedRoutes(rs: seq<InternalRoute>): seq<RouteChange> {
    seq(|rs|, i requires 0 <= i < |rs| => Removed(OfPeer(rs[i])))
  }

  function UpdatedRoutes(rs: seq<InternalRoute>): seq<RouteChange> {
    seq(|rs|, i requires 0 <= i < |rs| => Updated(OfPeer(rs[i])))
  }

  lemma {:induction false} DeltasOfReports(rs: seq<InternalRoute>)
    ensures PeerDeltas(RemovedRoutes(rs)) == Removals(rs) && LocalDeltas(RemovedRoutes(rs)) == []
    ensures PeerDeltas(UpdatedRoutes(rs)) == Updates(rs) && LocalDeltas(UpdatedRoutes(rs)) == []
  {
    if |rs| > 0 {
      DeltasOfReports(rs[1..]);
      assert RemovedRoutes(rs)[1..] == RemovedRoutes(rs[1..]);
      assert UpdatedRoutes(rs)[1..] == UpdatedRoutes(rs[1..]);
      assert Removals(rs) == [Removed(rs[0])] + Removals(rs[1..]);
      assert Updates(rs) == [Updated(rs[0])] + Updates(rs[1..]);
    }
  }

  /** Releases for the routes that carry a port. */
  function PortReleases(rs: seq<InternalRoute>): seq<PortOp> {
    if |rs| == 0 then []
    else if rs[0].ch.envoyPort.Some? then
      [Released(rs[0].ch.name, rs[0].ch.envoyPort.value)] + PortReleases(rs[1..])
    else PortReleases(rs[1..])
  }
}
