/** One dispatch as a value transition: policy, plan, ports, commit, and what is sent to whom. */
module BusSpec {
  import opened KeyedLists
  import opened RouteTypes
  import opened Rib
  import opened PortAllocator

  /** The optional route policy; the orchestrator service itself configures none. */
  datatype Policy =
    | NoPolicy
    | RoutePolicy(canSend: (PeerRecord, InternalRoute) -> bool,
                  canReceive: (PeerRecord, seq<DataChannel>) -> seq<DataChannel>)

  datatype NodeConfig = NodeConfig(name: string, envoyAddress: Option<string>, policy: Policy)

  /** A message handed to the transport and delivered by it. */
  datatype Send =
    | SendUpdate(to: string, items: seq<UpdateItem>)
    | SendKeepalive(to: string)
    | SendClose(to: string, code: int)

  // -------------------------------------------------------------------------
  // Validation and inbound policy
  // -------------------------------------------------------------------------

  /** The characters `trim` removes. */
  predicate IsSpace(c: char) {
    || c in {' ', '\t', '\n', '\r', '\U{000B}', '\U{000C}', '\U{00A0}', '\U{1680}', '\U{2028}', '\U{2029}',
             '\U{202F}', '\U{205F}', '\U{3000}', '\U{FEFF}'}
    || '\U{2000}' <= c <= '\U{200A}'
  }

  predicate IsBlank(s: string) {
    forall c :: c in s ==> IsSpace(c)
  }

  predicate LacksToken(a: Action) {
    a.LocalPeerCreate? && (a.info.peerToken.None? || IsBlank(a.info.peerToken.value))
  }

  function ChannelsOf(us: seq<UpdateItem>): seq<DataChannel> {
    seq(|us|, i requires 0 <= i < |us| => us[i].route)
  }

  function RouteName(u: UpdateItem): string { u.route.name }

  /** The action with the rejected routes removed; None when none is left. */
  function ApplyInboundPolicy(policy: Policy, a: Action, t: RouteTable): Option<Action> {
    if !a.InternalProtocolUpdate? || policy.NoPolicy? then Some(a)
    else
      match Find(PeerName, t.peers, a.info.name)
      case None => Some(a)
      case Some(peer) =>
        var allowed := policy.canReceive(peer, ChannelsOf(a.items));
        var kept := Within(RouteName, a.items, set ch | ch in allowed :: ch.name);
        if |kept| == 0 then None else Some(InternalProtocolUpdate(a.info, kept))
  }

  // -------------------------------------------------------------------------
  // Port allocation between plan and commit
  // -------------------------------------------------------------------------

  function EgressKey(name: string, peer: string): string { "egress_" + name + "_via_" + peer }

  function EgressKeyOf(r: InternalRoute): string { EgressKey(r.ch.name, r.peer.name) }

  /** The pool and the audit trail while ports are planned. */
  datatype Ports = Ports(pool: Pool, ops: seq<PortOp>)

  function FreeKey(p: Ports, key: string): Ports {
    if key in p.pool.taken then Ports(Release(p.pool, key), p.ops + [Released(key, p.pool.taken[key])]) else p
  }

  function FreeChange(p: Ports, c: RouteChange): Ports {
    match c
    case Removed(OfLocal(ch)) => FreeKey(p, ch.name)
    case Removed(OfPeer(r)) => FreeKey(FreeKey(p, r.ch.name), EgressKeyOf(r))
    case _ => p
  }

  function FreeChanges(p: Ports, cs: seq<RouteChange>): Ports
    decreases cs
  {
    if |cs| == 0 then p else FreeChanges(FreeChange(p, cs[0]), cs[1..])
  }

  /** Releases requested by the plan itself. */
  function Honour(p: Ports, ops: seq<PortOp>): Ports
    decreases ops
  {
    if |ops| == 0 then p
    else if ops[0].Released? then Honour(Ports(Release(p.pool, ops[0].key), p.ops + [ops[0]]), ops[1..])
    else Honour(p, ops[1..])
  }

  /** `if (route.envoyPort)`: a port of 0 counts as none. */
  predicate Ported(ch: DataChannel) { ch.envoyPort.Some? && ch.envoyPort.value != 0 }

  datatype LocalStamp = LocalStamp(channels: seq<DataChannel>, ports: Ports, granted: map<string, int>)

  function StampLocal(ch: DataChannel, s: LocalStamp): LocalStamp {
    if Ported(ch) then s.(channels := s.channels + [ch])
    else
      var pool := Allocate(s.ports.pool, ch.name);
      match PortOf(pool, ch.name)
      case None => LocalStamp(s.channels + [ch], Ports(pool, s.ports.ops), s.granted)
      case Some(port) =>
        LocalStamp(s.channels + [ch.(envoyPort := Some(port))],
                   Ports(pool, s.ports.ops + [Allocated(ch.name, port)]), s.granted[ch.name := port])
  }

  function StampLocals(chs: seq<DataChannel>, s: LocalStamp): LocalStamp
    decreases chs
  {
    if |chs| == 0 then s else StampLocals(chs[1..], StampLocal(chs[0], s))
  }

  datatype EgressStamp = EgressStamp(routes: seq<InternalRoute>, ports: Ports, egress: map<string, int>)

  function WithPort(r: InternalRoute, port: int): InternalRoute { r.(ch := r.ch.(envoyPort := Some(port))) }

  function StampEgress(r: InternalRoute, s: EgressStamp): EgressStamp {
    var pool := Allocate(s.ports.pool, EgressKeyOf(r));
    match PortOf(pool, EgressKeyOf(r))
    case None => EgressStamp(s.routes + [r], Ports(pool, s.ports.ops), s.egress)
    case Some(port) =>
      EgressStamp(s.routes + [WithPort(r, port)],
                  Ports(pool, if r.ch.envoyPort == Some(port) then s.ports.ops else s.ports.ops + [Allocated(EgressKeyOf(r), port)]),
                  s.egress[EgressKeyOf(r) := port])
  }

  function StampEgresses(rs: seq<InternalRoute>, s: EgressStamp): EgressStamp
    decreases rs
  {
    if |rs| == 0 then s else StampEgresses(rs[1..], StampEgress(rs[0], s))
  }

  function StampRoute(x: Route, granted: map<string, int>, egress: map<string, int>): Route {
    match x
    case OfPeer(r) => if EgressKeyOf(r) in egress then OfPeer(WithPort(r, egress[EgressKeyOf(r)])) else x
    case OfLocal(ch) =>
      if ch.name in granted && !Ported(ch) then OfLocal(ch.(envoyPort := Some(granted[ch.name]))) else x
  }

  function StampChange(c: RouteChange, granted: map<string, int>, egress: map<string, int>): RouteChange {
    match c
    case Removed(_) => c
    case Added(x) => Added(StampRoute(x, granted, egress))
    case Updated(x) => Updated(StampRoute(x, granted, egress))
  }

  function StampChanges(cs: seq<RouteChange>, granted: map<string, int>, egress: map<string, int>): seq<RouteChange> {
    seq(|cs|, i requires 0 <= i < |cs| => StampChange(cs[i], granted, egress))
  }

  function Freed(plan: PlanResult, pool: Pool): Ports {
    Honour(FreeChanges(Ports(pool, []), plan.changes), plan.portOps)
  }

  function StampedLocals(plan: PlanResult, pool: Pool): LocalStamp {
    StampLocals(plan.next.local, LocalStamp([], Freed(plan, pool), map[]))
  }

  function StampedEgresses(plan: PlanResult, pool: Pool): EgressStamp {
    StampEgresses(plan.next.internal, EgressStamp([], StampedLocals(plan, pool).ports, map[]))
  }

  /** The plan with ports released, allocated and stamped on routes and changes. */
  function WithPorts(plan: PlanResult, pool: Pool): PlanResult {
    var l, e := StampedLocals(plan, pool), StampedEgresses(plan, pool);
    PlanResult(plan.prev, RouteTable(l.channels, plan.next.peers, e.routes), e.ports.ops,
               StampChanges(plan.changes, l.granted, e.egress), plan.changed)
  }

  function PoolAfter(plan: PlanResult, pool: Pool): Pool { StampedEgresses(plan, pool).ports.pool }

  // -------------------------------------------------------------------------
  // What is sent
  // -------------------------------------------------------------------------

  function Advertised(cfg: NodeConfig, verb: Verb, r: InternalRoute): UpdateItem {
    UpdateItem(verb, ToDataChannel(r.ch, cfg), [cfg.name] + r.nodePath, r.originNode)
  }

  function AdvertisedLocal(cfg: NodeConfig, verb: Verb, ch: DataChannel): UpdateItem {
    UpdateItem(verb, ToDataChannel(ch, cfg), [cfg.name], cfg.name)
  }

  function ToDataChannel(ch: DataChannel, cfg: NodeConfig): DataChannel {
    ch.(envoyAddress := if cfg.envoyAddress.Some? then cfg.envoyAddress else ch.envoyAddress)
  }

  /** Split horizon and loop guard. */
  predicate MayPass(r: InternalRoute, peer: PeerRecord) {
    Via(r) != PeerName(peer) && PeerName(peer) !in r.nodePath
  }

  predicate PolicyAllows(cfg: NodeConfig, peer: PeerRecord, r: InternalRoute) {
    cfg.policy.RoutePolicy? ==> cfg.policy.canSend(peer, r)
  }

  /** The update entry a change causes for `peer`, if any. */
  function ItemFor(cfg: NodeConfig, peer: PeerRecord, c: RouteChange): seq<UpdateItem> {
    var verb := if c.Removed? then Remove else Add;
    match c.x
    case OfLocal(ch) => [AdvertisedLocal(cfg, verb, ch)]
    case OfPeer(r) =>
      if !MayPass(r, peer) then []
      else if !c.Removed? && !PolicyAllows(cfg, peer, r) then []
      else [Advertised(cfg, verb, r)]
  }

  function ItemsFor(cfg: NodeConfig, peer: PeerRecord, cs: seq<RouteChange>): seq<UpdateItem> {
    if |cs| == 0 then [] else ItemFor(cfg, peer, cs[0]) + ItemsFor(cfg, peer, cs[1..])
  }

  function LocalItems(cfg: NodeConfig, chs: seq<DataChannel>): seq<UpdateItem> {
    seq(|chs|, i requires 0 <= i < |chs| => AdvertisedLocal(cfg, Add, chs[i]))
  }

  predicate Syncable(cfg: NodeConfig, peer: PeerRecord, r: InternalRoute) {
    !r.isStale && MayPass(r, peer) && PolicyAllows(cfg, peer, r)
  }

  function InternalItems(cfg: NodeConfig, peer: PeerRecord, rs: seq<InternalRoute>): seq<UpdateItem> {
    if |rs| == 0 then []
    else (if Syncable(cfg, peer, rs[0]) then [Advertised(cfg, Add, rs[0])] else []) + InternalItems(cfg, peer, rs[1..])
  }

  /** The full table dump for a peer that has just connected. */
  function FullSync(cfg: NodeConfig, peer: PeerRecord, t: RouteTable): seq<UpdateItem> {
    LocalItems(cfg, t.local) + InternalItems(cfg, peer, t.internal)
  }

  function StatusOf(p: PeerRecord): ConnectionStatus { p.status }

  function ConnectedPeers(t: RouteTable): seq<PeerRecord> { Within(StatusOf, t.peers, {Connected}) }

  /** An update message, unless it is empty or the transport cannot reach the peer. */
  function Post(up: set<string>, peer: string, items: seq<UpdateItem>): seq<Send> {
    if |items| > 0 && peer in up then [SendUpdate(peer, items)] else []
  }

  function FanOut(cfg: NodeConfig, peers: seq<PeerRecord>, cs: seq<RouteChange>, up: set<string>): seq<Send> {
    if |peers| == 0 then []
    else Post(up, PeerName(peers[0]), ItemsFor(cfg, peers[0], cs)) + FanOut(cfg, peers[1..], cs, up)
  }

  function CloseNotice(a: Action, prev: RouteTable, up: set<string>): seq<Send> {
    if a.LocalPeerDelete? && Find(PeerName, prev.peers, a.name).Some? && a.name in up then [SendClose(a.name, NORMAL)] else []
  }

  /** The update messages that follow a commit of `plan` for action `a`. */
  function Notified(cfg: NodeConfig, a: Action, plan: PlanResult, up: set<string>): seq<Send> {
    if a.InternalProtocolConnected? then
      match Find(PeerName, ConnectedPeers(plan.next), a.info.name)
      case Some(peer) => Post(up, PeerName(peer), FullSync(cfg, peer, plan.next))
      case None => []
    else
      CloseNotice(a, plan.prev, up)
      + if |plan.changes| == 0 then [] else FanOut(cfg, ConnectedPeers(plan.next), plan.changes, up)
  }

  // -------------------------------------------------------------------------
  // Keepalives
  // -------------------------------------------------------------------------

  function LastSent(sent: map<string, int>, name: string): int { if name in sent then sent[name] else 0 }

  /** `now - lastSent > holdTime / 3` for a connected peer with a hold time. */
  predicate NeedsKeepalive(p: PeerRecord, sent: map<string, int>, now: int) {
    p.status == Connected && p.holdTime > 0 && 3 * (now - LastSent(sent, PeerName(p))) > p.holdTime
  }

  function Needing(ps: seq<PeerRecord>, sent: map<string, int>, now: int): seq<string> {
    if |ps| == 0 then []
    else (if NeedsKeepalive(ps[0], sent, now) then [PeerName(ps[0])] else []) + Needing(ps[1..], sent, now)
  }

  function KeepalivesTo(names: seq<string>, up: set<string>): seq<Send> {
    if |names| == 0 then []
    else (if names[0] in up then [SendKeepalive(names[0])] else []) + KeepalivesTo(names[1..], up)
  }

  /** Only successful sends are remembered. */
  function Remembered(sent: map<string, int>, names: seq<string>, now: int, up: set<string>): map<string, int>
    decreases names
  {
    if |names| == 0 then sent
    else Remembered(if names[0] in up then sent[names[0] := now] else sent, names[1..], now, up)
  }

  // -------------------------------------------------------------------------
  // Dispatch
  // -------------------------------------------------------------------------

  datatype BusState = BusState(table: RouteTable, pool: Option<Pool>, sent: map<string, int>)

  datatype DispatchResult = Success | MissingPeerToken | AllRoutesRejected | NoStateChange

  datatype Outcome = Outcome(state: BusState, sends: seq<Send>, result: DispatchResult)

  function PlanPorts(plan: PlanResult, pool: Option<Pool>): PlanResult {
    if pool.Some? then WithPorts(plan, pool.value) else plan
  }

  function PoolNext(plan: PlanResult, pool: Option<Pool>): Option<Pool> {
    if pool.Some? then Some(PoolAfter(plan, pool.value)) else None
  }

  function KeepaliveSends(a: Action, t: RouteTable, sent: map<string, int>, up: set<string>): seq<Send> {
    if a.Tick? then KeepalivesTo(Needing(t.peers, sent, a.now), up) else []
  }

  function SentAfter(a: Action, t: RouteTable, sent: map<string, int>, up: set<string>): map<string, int> {
    if a.Tick? then Remembered(sent, Needing(t.peers, sent, a.now), a.now, up) else sent
  }

  /** Everything after a plan that changes the table: ports, commit, notifications, keepalives. */
  function Carried(cfg: NodeConfig, s: BusState, a: Action, ribPlan: PlanResult, up: set<string>): Outcome {
    var plan := PlanPorts(ribPlan, s.pool);
    Outcome(BusState(plan.next, PoolNext(ribPlan, s.pool), SentAfter(a, plan.next, s.sent, up)),
            Notified(cfg, a, plan, up) + KeepaliveSends(a, plan.next, s.sent, up),
            Success)
  }

  function Dispatched(cfg: NodeConfig, s: BusState, a: Action, clock: int, up: set<string>): Outcome {
    if LacksToken(a) then Outcome(s, [], MissingPeerToken)
    else
      match ApplyInboundPolicy(cfg.policy, a, s.table)
      case None => Outcome(s, [], AllRoutesRejected)
      case Some(filtered) =>
        var ribPlan := Planned(cfg.name, filtered, s.table, clock);
        if ribPlan.changed then Carried(cfg, s, a, ribPlan, up)
        else Outcome(s.(sent := SentAfter(a, s.table, s.sent, up)), KeepaliveSends(a, s.table, s.sent, up), NoStateChange)
  }
}
