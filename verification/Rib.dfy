/** The routing information base: the plan functions for the twelve actions, and plan/commit. */
module Rib {
  import opened KeyedLists
  import opened RouteTypes
  import opened Journal

  function NoChange(t: RouteTable): PlanResult {
    PlanResult(t, t, [], [], false)
  }

  // -------------------------------------------------------------------------
  // Local peers
  // -------------------------------------------------------------------------

  function PlanLocalPeerCreate(info: PeerInfo, t: RouteTable): PlanResult {
    if IndexOf(PeerName, t.peers, info.name) >= 0 then NoChange(t)
    else
      var p := PeerRecord(info, Initializing, 0, DEFAULT_HOLD_TIME, 0, 0);
      PlanResult(t, t.(peers := t.peers + [p]), [], [], true)
  }

  function Given<T>(update: Option<T>, existing: Option<T>): Option<T> {
    if update.Some? then update else existing
  }

  function PlanLocalPeerUpdate(info: PeerInfo, t: RouteTable): PlanResult {
    var i := IndexOf(PeerName, t.peers, info.name);
    if i < 0 then NoChange(t)
    else
      var was := t.peers[i].info;
      var merged := PeerInfo(info.name, info.domains, Given(info.endpoint, was.endpoint),
                             Given(info.labels, was.labels), Given(info.peerToken, was.peerToken),
                             Given(info.envoyAddress, was.envoyAddress));
      PlanResult(t, t.(peers := t.peers[i := t.peers[i].(info := merged)]), [], [], true)
  }

  function PlanLocalPeerDelete(name: string, t: RouteTable): PlanResult {
    var peers := Without(PeerName, t.peers, {name});
    if |peers| == |t.peers| then NoChange(t)
    else
      var removed := Within(Via, t.internal, {name});
      PlanResult(t, RouteTable(t.local, peers, Without(Via, t.internal, {name})),
                 PortReleases(removed), RemovedRoutes(removed), true)
  }

  // -------------------------------------------------------------------------
  // Local routes
  // -------------------------------------------------------------------------

  function PlanLocalRouteCreate(ch: DataChannel, t: RouteTable): PlanResult {
    if IndexOf(ChannelName, t.local, ch.name) >= 0 then NoChange(t)
    else PlanResult(t, t.(local := t.local + [ch]), [], [Added(OfLocal(ch))], true)
  }

  function PlanLocalRouteDelete(name: string, t: RouteTable): PlanResult {
    match Find(ChannelName, t.local, name)
    case None => NoChange(t)
    case Some(ch) =>
      PlanResult(t, t.(local := Without(ChannelName, t.local, {name})),
                 if ch.envoyPort.Some? then [Released(name, ch.envoyPort.value)] else [],
                 [Removed(OfLocal(ch))], true)
  }

  function PlanLocalRouteHealthUpdate(name: string, health: Health, latency: Latency, checked: string, t: RouteTable): PlanResult {
    var i := IndexOf(ChannelName, t.local, name);
    if i < 0 then NoChange(t)
    else
      var ch := t.local[i];
      if ch.healthStatus == Some(health) && ch.responseTimeMs == latency && ch.lastChecked == Some(checked) then NoChange(t)
      else
        var ch' := ch.(healthStatus := Some(health), responseTimeMs := latency, lastChecked := Some(checked));
        PlanResult(t, t.(local := t.local[i := ch']), [], [Updated(OfLocal(ch'))], true)
  }

  // -------------------------------------------------------------------------
  // Internal protocol
  // -------------------------------------------------------------------------

  function Min(a: int, b: int): int { if a <= b then a else b }

  function PlanInternalProtocolOpen(info: PeerInfo, offered: Option<int>, t: RouteTable, clock: int): PlanResult {
    var i := IndexOf(PeerName, t.peers, info.name);
    if i < 0 then NoChange(t)
    else
      var p := t.peers[i];
      var hold := if offered.Some? then Min(p.holdTime, offered.value) else p.holdTime;
      PlanResult(t, t.(peers := t.peers[i := p.(status := Connected, holdTime := hold, lastReceived := clock)]), [], [], true)
  }

  function PlanInternalProtocolConnected(info: PeerInfo, t: RouteTable, clock: int): PlanResult {
    var i := IndexOf(PeerName, t.peers, info.name);
    if i < 0 then NoChange(t)
    else
      var p := t.peers[i].(status := Connected, lastConnected := clock, lastReceived := clock,
                           holdTime := DEFAULT_HOLD_TIME, lastSent := 0);
      PlanResult(t, t.(peers := t.peers[i := p]), [], [], true)
  }

  function Stale(r: InternalRoute): InternalRoute { r.(isStale := true) }

  function StaleAll(rs: seq<InternalRoute>): seq<InternalRoute> {
    seq(|rs|, i requires 0 <= i < |rs| => Stale(rs[i]))
  }

  /** Marks the routes learned from `name` stale, in place. */
  function StaleVia(rs: seq<InternalRoute>, name: string): seq<InternalRoute> {
    seq(|rs|, i requires 0 <= i < |rs| => if Via(rs[i]) == name then Stale(rs[i]) else rs[i])
  }

  function PlanInternalProtocolClose(info: PeerInfo, code: int, t: RouteTable): PlanResult {
    var i := IndexOf(PeerName, t.peers, info.name);
    if i < 0 then NoChange(t)
    else
      var peers := t.peers[i := t.peers[i].(status := Closed)];
      var theirs := Within(Via, t.internal, {info.name});
      if code == TRANSPORT_ERROR then
        PlanResult(t, RouteTable(t.local, peers, StaleVia(t.internal, info.name)),
                   [], UpdatedRoutes(StaleAll(theirs)), true)
      else
        PlanResult(t, RouteTable(t.local, peers, Without(Via, t.internal, {info.name})),
                   PortReleases(theirs), RemovedRoutes(theirs), true)
  }

  /** What processing update items does to the internal routes. */
  datatype Effect = Effect(routes: seq<InternalRoute>, changes: seq<RouteChange>, portOps: seq<PortOp>)

  function Learned(from: PeerInfo, u: UpdateItem): InternalRoute {
    InternalRoute(u.route, from, u.nodePath, u.originNode, false)
  }

  /** One pass of the update loop, at node `self`, for an item sent by `from`. */
  function ItemStep(self: string, from: PeerInfo, u: UpdateItem, routes: seq<InternalRoute>): Effect {
    var i := IndexOf(KeyOf, routes, ItemKey(u));
    if u.verb.Add? then
      if self in u.nodePath then Effect(routes, [], [])
      else if i < 0 then Effect(routes + [Learned(from, u)], [Added(OfPeer(Learned(from, u)))], [])
      else if |u.nodePath| < |routes[i].nodePath| || routes[i].isStale then
        Effect(routes[i := Learned(from, u)], [Updated(OfPeer(Learned(from, u)))], [])
      else Effect(routes, [], [])
    else if i < 0 then Effect(routes, [], [])
    else
      Effect(Without(KeyOf, routes, {ItemKey(u)}), [Removed(OfPeer(routes[i]))],
             if routes[i].ch.envoyPort.Some? then [Released(u.route.name, routes[i].ch.envoyPort.value)] else [])
  }

  /** The whole update loop. */
  function ItemLoop(self: string, from: PeerInfo, us: seq<UpdateItem>, routes: seq<InternalRoute>): Effect {
    if |us| == 0 then Effect(routes, [], [])
    else
      var e := ItemStep(self, from, us[0], routes);
      var rest := ItemLoop(self, from, us[1..], e.routes);
      Then(e, rest)
  }

  function Touch(peers: seq<PeerRecord>, name: string, clock: int): seq<PeerRecord> {
    var i := IndexOf(PeerName, peers, name);
    if i < 0 then peers else peers[i := peers[i].(lastReceived := clock)]
  }

  function UpdateResult(info: PeerInfo, e: Effect, t: RouteTable, clock: int): PlanResult {
    if |e.changes| == 0 && IndexOf(PeerName, t.peers, info.name) < 0 then NoChange(t)
    else PlanResult(t, RouteTable(t.local, Touch(t.peers, info.name, clock), e.routes), e.portOps, e.changes, true)
  }

  function PlannedUpdate(self: string, info: PeerInfo, us: seq<UpdateItem>, t: RouteTable, clock: int): PlanResult {
    UpdateResult(info, ItemLoop(self, info, us, t.internal), t, clock)
  }

  function Then(e: Effect, rest: Effect): Effect {
    Effect(rest.routes, e.changes + rest.changes, e.portOps + rest.portOps)
  }

  lemma {:induction false} ItemLoopSnoc(self: string, from: PeerInfo, us: seq<UpdateItem>, u: UpdateItem, routes: seq<InternalRoute>)
    ensures var before := ItemLoop(self, from, us, routes);
            ItemLoop(self, from, us + [u], routes) == Then(before, ItemStep(self, from, u, before.routes))
  {
    if |us| == 0 {
      assert us + [u] == [u] && [u][1..] == [];
    } else {
      var e := ItemStep(self, from, us[0], routes);
      assert (us + [u])[1..] == us[1..] + [u];
      ItemLoopSnoc(self, from, us[1..], u, e.routes);
      ThenAssociates(e, ItemLoop(self, from, us[1..], e.routes),
                     ItemStep(self, from, u, ItemLoop(self, from, us[1..], e.routes).routes));
    }
  }

  lemma ThenAssociates(a: Effect, b: Effect, c: Effect)
    ensures Then(a, Then(b, c)) == Then(Then(a, b), c)
  {
    assert a.changes + (b.changes + c.changes) == (a.changes + b.changes) + c.changes;
    assert a.portOps + (b.portOps + c.portOps) == (a.portOps + b.portOps) + c.portOps;
  }

  method PlanInternalProtocolUpdate(self: string, info: PeerInfo, us: seq<UpdateItem>, t: RouteTable, clock: int)
    returns (plan: PlanResult)
    ensures plan == PlannedUpdate(self, info, us, t, clock)
  {
    var routes, changes: seq<RouteChange>, portOps: seq<PortOp> := t.internal, [], [];
    for n := 0 to |us|
      invariant Effect(routes, changes, portOps) == ItemLoop(self, info, us[..n], t.internal)
    {
      var u := us[n];
      ItemLoopSnoc(self, info, us[..n], u, t.internal);
      assert us[..n + 1] == us[..n] + [u];
      var i := IndexOf(KeyOf, routes, ItemKey(u));
      if u.verb.Add? {
        if self !in u.nodePath {
          var route := InternalRoute(u.route, info, u.nodePath, u.originNode, false);
          if i >= 0 {
            if |u.nodePath| < |routes[i].nodePath| || routes[i].isStale {
              routes := routes[i := route];
              changes := changes + [Updated(OfPeer(route))];
            }
          } else {
            routes := routes + [route];
            changes := changes + [Added(OfPeer(route))];
          }
        }
      } else if i >= 0 {
        var removed := routes[i];
        routes := Without(KeyOf, routes, {ItemKey(u)});
        changes := changes + [Removed(OfPeer(removed))];
        if removed.ch.envoyPort.Some? {
          portOps := portOps + [Released(u.route.name, removed.ch.envoyPort.value)];
        }
      }
    }
    assert us[..|us|] == us;
    plan := UpdateResult(info, Effect(routes, changes, portOps), t, clock);
  }

  function PlanInternalProtocolKeepalive(info: PeerInfo, t: RouteTable, clock: int): PlanResult {
    if IndexOf(PeerName, t.peers, info.name) < 0 then NoChange(t)
    else PlanResult(t, t.(peers := Touch(t.peers, info.name, clock)), [], [], true)
  }

  // -------------------------------------------------------------------------
  // Tick
  // -------------------------------------------------------------------------

  predicate HoldElapsed(p: PeerRecord, now: int) {
    p.holdTime > 0 && p.lastReceived > 0 && now - p.lastReceived > p.holdTime
  }

  predicate Expires(p: PeerRecord, now: int) {
    p.status == Connected && HoldElapsed(p, now)
  }

  function CloseExpired(p: PeerRecord, now: int): PeerRecord {
    if Expires(p, now) then p.(status := Closed) else p
  }

  function CloseAllExpired(ps: seq<PeerRecord>, now: int): seq<PeerRecord> {
    seq(|ps|, i requires 0 <= i < |ps| => CloseExpired(ps[i], now))
  }

  predicate HasStale(rs: seq<InternalRoute>, name: string) {
    exists r :: r in rs && Via(r) == name && r.isStale
  }

  /** A closed peer whose stale routes outlived the grace period. */
  predicate GraceOver(p: PeerRecord, now: int, rs: seq<InternalRoute>) {
    p.status == Closed && HoldElapsed(p, now) && HasStale(rs, PeerName(p))
  }

  function ExpiredNames(ps: seq<PeerRecord>, now: int): set<string> {
    set p | p in ps && Expires(p, now) :: PeerName(p)
  }

  function GraceOverNames(ps: seq<PeerRecord>, now: int, rs: seq<InternalRoute>): set<string> {
    set p | p in ps && GraceOver(p, now, rs) :: PeerName(p)
  }

  function Purged(now: int, t: RouteTable): set<string> {
    ExpiredNames(t.peers, now) + GraceOverNames(CloseAllExpired(t.peers, now), now, t.internal)
  }

  function PlannedTick(now: int, t: RouteTable): PlanResult {
    if Purged(now, t) == {} then NoChange(t)
    else
      var removed := Within(Via, t.internal, Purged(now, t));
      PlanResult(t, RouteTable(t.local, CloseAllExpired(t.peers, now), Without(Via, t.internal, Purged(now, t))),
                 PortReleases(removed), RemovedRoutes(removed), true)
  }

  method PlanTick(now: int, t: RouteTable) returns (plan: PlanResult)
    ensures plan == PlannedTick(now, t)
  {
    var expired: set<string>, peers: seq<PeerRecord> := {}, [];
    for i := 0 to |t.peers|
      invariant peers == CloseAllExpired(t.peers[..i], now)
      invariant expired == ExpiredNames(t.peers[..i], now)
    {
      var p := t.peers[i];
      assert t.peers[..i + 1] == t.peers[..i] + [p];
      if Expires(p, now) {
        expired := expired + {PeerName(p)};
        peers := peers + [p.(status := Closed)];
      } else {
        peers := peers + [p];
      }
    }
    assert t.peers[..|t.peers|] == t.peers;
    var stale: set<string> := {};
    for i := 0 to |peers|
      invariant stale == GraceOverNames(peers[..i], now, t.internal)
    {
      var p := peers[i];
      assert peers[..i + 1] == peers[..i] + [p];
      if p.status == Closed && p.holdTime > 0 && p.lastReceived > 0 && now - p.lastReceived > p.holdTime {
        if HasStale(t.internal, PeerName(p)) {
          stale := stale + {PeerName(p)};
        }
      }
    }
    assert peers[..|peers|] == peers;
    var purged := expired + stale;
    if purged == {} {
      return NoChange(t);
    }
    var removed := Within(Via, t.internal, purged);
    plan := PlanResult(t, RouteTable(t.local, peers, Without(Via, t.internal, purged)),
                       PortReleases(removed), RemovedRoutes(removed), true);
  }

  // -------------------------------------------------------------------------
  // Plan and commit
  // -------------------------------------------------------------------------

  /** The state transition for `a` on table `t` at node `self`, when the wall clock reads `clock`. */
  function Planned(self: string, a: Action, t: RouteTable, clock: int): PlanResult {
    match a
    case LocalPeerCreate(info) => PlanLocalPeerCreate(info, t)
    case LocalPeerUpdate(info) => PlanLocalPeerUpdate(info, t)
    case LocalPeerDelete(name) => PlanLocalPeerDelete(name, t)
    case LocalRouteCreate(ch) => PlanLocalRouteCreate(ch, t)
    case LocalRouteDelete(name) => PlanLocalRouteDelete(name, t)
    case LocalRouteHealthUpdate(name, h, l, c) => PlanLocalRouteHealthUpdate(name, h, l, c, t)
    case InternalProtocolOpen(info, offered) => PlanInternalProtocolOpen(info, offered, t, clock)
    case InternalProtocolConnected(info) => PlanInternalProtocolConnected(info, t, clock)
    case InternalProtocolClose(info, code) => PlanInternalProtocolClose(info, code, t)
    case InternalProtocolUpdate(info, us) => PlannedUpdate(self, info, us, t, clock)
    case InternalProtocolKeepalive(info) => PlanInternalProtocolKeepalive(info, t, clock)
    case Tick(now) => PlannedTick(now, t)
  }

  function CommittedLog(self: string, plan: PlanResult, a: Action, log: Log): Log {
    if plan.changed then log.Append(a, self) else log
  }

  class RoutingInformationBase {
    const nodeId: string
    const journal: InMemoryActionLog?
    var state: RouteTable

    constructor (nodeId: string, journal: InMemoryActionLog?, initial: RouteTable)
      ensures this.nodeId == nodeId && this.journal == journal && state == initial
    {
      this.nodeId, this.journal, this.state := nodeId, journal, initial;
    }

    method Plan(a: Action, t: RouteTable, clock: int) returns (plan: PlanResult)
      ensures plan == Planned(nodeId, a, t, clock)
    {
      match a
      case InternalProtocolUpdate(info, us) => plan := PlanInternalProtocolUpdate(nodeId, info, us, t, clock);
      case Tick(now) => plan := PlanTick(now, t);
      case _ => plan := Planned(nodeId, a, t, clock);
    }

    method Commit(plan: PlanResult, a: Action)
      modifies this, journal
      ensures state == plan.next
      ensures journal != null ==> journal.Contents() == CommittedLog(nodeId, plan, a, old(journal.Contents()))
    {
      state := plan.next;
      if plan.changed && journal != null {
        var _ := journal.Append(a, nodeId);
      }
    }
  }
}
