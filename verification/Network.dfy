/** A network of nodes and the update messages in flight between them, as a step relation. */
module Network {
  import opened KeyedLists
  import opened RouteTypes
  import opened Rib
  import opened BusSpec
  import opened PortErasure
  import opened DispatchFacts

  datatype Msg = Msg(src: string, dst: string, items: seq<UpdateItem>)

  /** `cfgs` and `nodes` are indexed by node name. */
  datatype Net = Net(cfgs: map<string, NodeConfig>, nodes: map<string, BusState>, flight: multiset<Msg>)

  /** The update messages among the sends of node `src`, now in flight. */
  function Launched(src: string, sends: seq<Send>): (r: multiset<Msg>)
    ensures forall m :: m in r <==> m.src == src && SendUpdate(m.dst, m.items) in sends
    ensures |r| <= |sends|
  {
    if |sends| == 0 then multiset{}
    else
      var rest := Launched(src, sends[1..]);
      match sends[0]
      case SendUpdate(to, items) => rest + multiset{Msg(src, to, items)}
      case _ => rest
  }

  /** One atomic dispatch at `node`. */
  function DispatchAt(net: Net, node: string, a: Action, clock: int, up: set<string>): Net
    requires node in net.nodes && node in net.cfgs
  {
    var o := Dispatched(net.cfgs[node], net.nodes[node], a, clock, up);
    Net(net.cfgs, net.nodes[node := o.state], net.flight + Launched(node, o.sends))
  }

  /** The session endpoint accepts an update when every path in it starts at the authenticated sender. */
  predicate SenderChecks(src: string, items: seq<UpdateItem>) {
    forall u :: u in items && |u.nodePath| > 0 ==> u.nodePath[0] == src
  }

  datatype Event =
    | Local(node: string, action: Action, clock: int, up: set<string>)
    | Deliver(msg: Msg, info: PeerInfo, clock: int, up: set<string>)
    | Lose(msg: Msg)

  /** Any action but an update may happen anywhere at any time (session events included, so any order of opens, closes,
      timeouts); updates only arrive as messages in flight. No node configures itself as a peer. */
  predicate Enabled(net: Net, e: Event) {
    match e
    case Local(node, a, _, _) =>
      node in net.nodes && !a.InternalProtocolUpdate? && (a.LocalPeerCreate? ==> a.info.name != node)
    case Deliver(msg, info, _, _) => msg in net.flight && msg.dst in net.nodes && info.name == msg.src
    case Lose(msg) => msg in net.flight
  }

  function Exec(net: Net, e: Event): Net
    requires net.nodes.Keys <= net.cfgs.Keys && Enabled(net, e)
  {
    match e
    case Local(node, a, clock, up) => DispatchAt(net, node, a, clock, up)
    case Deliver(msg, info, clock, up) =>
      var rest := net.(flight := net.flight - multiset{msg});
      if SenderChecks(msg.src, msg.items) then DispatchAt(rest, msg.dst, InternalProtocolUpdate(info, msg.items), clock, up) else rest
    case Lose(msg) => net.(flight := net.flight - multiset{msg})
  }

  ghost predicate Configured(net: Net) {
    && net.nodes.Keys <= net.cfgs.Keys
    && forall n :: n in net.cfgs ==> net.cfgs[n].name == n
  }

  /** `es` can happen from `net`, one after the other. */
  ghost predicate CanRun(net: Net, es: seq<Event>)
    requires Configured(net)
    decreases es
  {
    |es| > 0 ==> Enabled(net, es[0]) && CanRun(Exec(net, es[0]), es[1..])
  }

  ghost function RunNet(net: Net, es: seq<Event>): Net
    requires Configured(net) && CanRun(net, es)
    decreases es
  {
    if |es| == 0 then net else RunNet(Exec(net, es[0]), es[1..])
  }

  // -------------------------------------------------------------------------
  // Path vectors
  // -------------------------------------------------------------------------

  ghost predicate Simple(path: seq<string>) {
    forall i, j :: 0 <= i < j < |path| ==> path[i] != path[j]
  }

  /** A simple path from `first` to `origin` that avoids `away`. */
  ghost predicate GoodPath(path: seq<string>, first: string, origin: string, away: string) {
    && |path| > 0 && path[0] == first && path[|path| - 1] == origin
    && Simple(path) && away !in path
  }

  ghost predicate GoodRoute(node: string, r: InternalRoute) {
    GoodPath(r.nodePath, Via(r), r.originNode, node)
  }

  ghost predicate GoodTable(node: string, t: RouteTable) {
    && GoodRoutes(node, t.internal)
    && (forall p :: p in t.peers ==> PeerName(p) != node)
  }

  ghost predicate GoodItem(src: string, dst: string, u: UpdateItem) {
    GoodPath(u.nodePath, src, u.originNode, dst)
  }

  /** Every stored path starts at the peer it was learned from, ends at its origin, repeats no node and avoids its
      holder; every path in flight starts at its sender, ends at its origin, repeats no node and avoids its target. */
  ghost predicate PathVectors(net: Net) {
    && Configured(net)
    && (forall n :: n in net.nodes ==> GoodTable(n, net.nodes[n].table))
    && (forall m, u :: m in net.flight && u in m.items ==> GoodItem(m.src, m.dst, u))
  }

  lemma {:induction false} LoopRoutesGood(self: string, from: PeerInfo, us: seq<UpdateItem>, routes: seq<InternalRoute>)
    requires forall r :: r in routes ==> GoodRoute(self, r)
    requires forall u :: u in us && u.verb.Add? ==> GoodItem(from.name, self, u)
    ensures var e := ItemLoop(self, from, us, routes);
            && (forall r :: r in e.routes ==> GoodRoute(self, r))
            && (forall c :: c in e.changes ==> c.x.OfPeer? && GoodRoute(self, c.x.ir))
  {
    if |us| > 0 {
      assert us[0] in us;
      var i := IndexOf(KeyOf, routes, ItemKey(us[0]));
      if i >= 0 {
        assert routes[i] in routes;
      }
      LoopRoutesGood(self, from, us[1..], ItemStep(self, from, us[0], routes).routes);
    }
  }

  ghost predicate GoodChanges(node: string, cs: seq<RouteChange>) {
    forall c :: c in cs && c.x.OfPeer? ==> GoodRoute(node, c.x.ir)
  }

  ghost predicate GoodRoutes(node: string, rs: seq<InternalRoute>) {
    forall r :: r in rs ==> GoodRoute(node, r)
  }

  lemma CloseGood(self: string, info: PeerInfo, code: int, t: RouteTable)
    requires GoodRoutes(self, t.internal)
    ensures var plan := PlanInternalProtocolClose(info, code, t);
            GoodRoutes(self, plan.next.internal) && GoodChanges(self, plan.changes)
  {
    var theirs := Within(Via, t.internal, {info.name});
    forall r | r in StaleVia(t.internal, info.name) ensures GoodRoute(self, r) {
      var i :| 0 <= i < |t.internal| && StaleVia(t.internal, info.name)[i] == r;
      assert t.internal[i] in t.internal;
    }
    forall c | c in UpdatedRoutes(StaleAll(theirs)) ensures GoodRoute(self, c.x.ir) {
      var i :| 0 <= i < |theirs| && UpdatedRoutes(StaleAll(theirs))[i] == c;
      assert theirs[i] in theirs;
    }
  }

  lemma PeersGood(self: string, a: Action, t: RouteTable, clock: int)
    requires GoodTable(self, t) && (a.LocalPeerCreate? ==> a.info.name != self)
    ensures forall p :: p in Planned(self, a, t, clock).next.peers ==> PeerName(p) != self
  {
    var peers := Planned(self, a, t, clock).next.peers;
    assert forall i :: 0 <= i < |t.peers| ==> t.peers[i] in t.peers;
    forall p | p in peers ensures PeerName(p) != self {
      var i :| 0 <= i < |peers| && peers[i] == p;
      if !a.LocalPeerDelete? && !a.LocalPeerCreate? {
        assert PeerName(peers[i]) == PeerName(t.peers[i]);
      }
    }
  }

  lemma RoutesGood(self: string, a: Action, t: RouteTable, clock: int)
    requires GoodRoutes(self, t.internal)
    requires a.InternalProtocolUpdate? ==> forall u :: u in a.items && u.verb.Add? ==> GoodItem(a.info.name, self, u)
    ensures var plan := Planned(self, a, t, clock);
            GoodRoutes(self, plan.next.internal) && GoodChanges(self, plan.changes)
  {
    match a
    case InternalProtocolClose(info, code) => CloseGood(self, info, code, t);
    case InternalProtocolUpdate(info, us) => LoopRoutesGood(self, info, us, t.internal);
    case Tick(now) => PurgeGood(self, t.internal, Purged(now, t));
    case LocalPeerDelete(name) => PurgeGood(self, t.internal, {name});
    case _ =>
  }

  lemma PurgeGood(self: string, rs: seq<InternalRoute>, names: set<string>)
    requires GoodRoutes(self, rs)
    ensures GoodRoutes(self, Without(Via, rs, names)) && GoodChanges(self, RemovedRoutes(Within(Via, rs, names)))
  {
    var gone := Within(Via, rs, names);
    forall c | c in RemovedRoutes(gone) ensures GoodRoute(self, c.x.ir) {
      var i :| 0 <= i < |gone| && RemovedRoutes(gone)[i] == c;
      assert gone[i] in rs;
    }
  }

  /** Planning keeps good paths, and reports only routes with good paths. */
  lemma PlanGood(self: string, a: Action, t: RouteTable, clock: int)
    requires GoodTable(self, t) && (a.LocalPeerCreate? ==> a.info.name != self)
    requires a.InternalProtocolUpdate? ==> forall u :: u in a.items && u.verb.Add? ==> GoodItem(a.info.name, self, u)
    ensures var plan := Planned(self, a, t, clock);
            GoodTable(self, plan.next) && GoodChanges(self, plan.changes)
  {
    PeersGood(self, a, t, clock);
    RoutesGood(self, a, t, clock);
  }

  lemma GoodUpToPorts(self: string, t: RouteTable, u: RouteTable)
    requires SameButPorts(t, u) && GoodTable(self, u)
    ensures GoodTable(self, t)
  {
    forall r | r in t.internal ensures GoodRoute(self, r) {
      PlannedTwin(t, u, r);
      var q :| q in u.internal && Core(q) == Core(r);
      assert Core(r).nodePath == Core(q).nodePath && Via(Core(r)) == Via(Core(q)) && Core(r).originNode == Core(q).originNode;
    }
  }

  lemma GoodChangesUpToPorts(self: string, cs: seq<RouteChange>, ds: seq<RouteChange>)
    requires SameChanges(cs, ds) && GoodChanges(self, ds)
    ensures GoodChanges(self, cs)
  {
    forall c | c in cs && c.x.OfPeer? ensures GoodRoute(self, c.x.ir) {
      var i :| 0 <= i < |cs| && cs[i] == c;
      assert SameChange(c, ds[i]) && ds[i] in ds;
      assert Core(c.x.ir) == Core(ds[i].x.ir);
      assert Core(c.x.ir).nodePath == Core(ds[i].x.ir).nodePath && Via(Core(c.x.ir)) == Via(Core(ds[i].x.ir))
             && Core(c.x.ir).originNode == Core(ds[i].x.ir).originNode;
    }
  }

  /** What a node sends on about a good route is a good path for the receiver. */
  lemma AdvertisedGood(cfg: NodeConfig, verb: Verb, r: InternalRoute, peer: PeerRecord)
    requires GoodRoute(cfg.name, r) && MayPass(r, peer) && PeerName(peer) != cfg.name
    ensures GoodItem(cfg.name, PeerName(peer), Advertised(cfg, verb, r))
  {
    var path := [cfg.name] + r.nodePath;
    assert path[|path| - 1] == r.nodePath[|r.nodePath| - 1];
    assert forall i :: 0 < i < |path| ==> path[i] == r.nodePath[i - 1];
  }

  lemma ItemsGood(cfg: NodeConfig, peer: PeerRecord, cs: seq<RouteChange>, u: UpdateItem)
    requires GoodChanges(cfg.name, cs) && PeerName(peer) != cfg.name && u in ItemsFor(cfg, peer, cs)
    ensures GoodItem(cfg.name, PeerName(peer), u)
  {
    ItemsForMember(cfg, peer, cs, u);
    var c :| c in cs && u in ItemFor(cfg, peer, c);
    if c.x.OfPeer? {
      AdvertisedGood(cfg, u.verb, c.x.ir, peer);
    }
  }

  lemma SyncGood(cfg: NodeConfig, peer: PeerRecord, t: RouteTable, u: UpdateItem)
    requires GoodTable(cfg.name, t) && PeerName(peer) != cfg.name && u in FullSync(cfg, peer, t)
    ensures GoodItem(cfg.name, PeerName(peer), u)
  {
    if u !in LocalItems(cfg, t.local) {
      InternalItemsMember(cfg, peer, t.internal, u);
      var r :| r in t.internal && Syncable(cfg, peer, r) && u == Advertised(cfg, Add, r);
      AdvertisedGood(cfg, Add, r, peer);
    }
  }

  /** An admitted action is the one received, perhaps with fewer items. */
  lemma AdmittedItems(cfg: NodeConfig, a: Action, t: RouteTable)
    ensures var admitted := ApplyInboundPolicy(cfg.policy, a, t);
            admitted.Some? && admitted.value != a ==>
              a.InternalProtocolUpdate? && admitted.value.InternalProtocolUpdate? && admitted.value.info == a.info
              && forall u :: u in admitted.value.items ==> u in a.items
  {
  }

  /** A dispatch keeps the node's paths good and sends good paths only, whatever the policy. */
  lemma DispatchGood(cfg: NodeConfig, s: BusState, a: Action, clock: int, up: set<string>)
    requires GoodTable(cfg.name, s.table) && (a.LocalPeerCreate? ==> a.info.name != cfg.name)
    requires a.InternalProtocolUpdate? ==> forall u :: u in a.items && u.verb.Add? ==> GoodItem(a.info.name, cfg.name, u)
    ensures var o := Dispatched(cfg, s, a, clock, up);
            && GoodTable(cfg.name, o.state.table)
            && (forall x, u :: x in o.sends && x.SendUpdate? && u in x.items ==> GoodItem(cfg.name, x.to, u))
  {
    var o, admitted := Dispatched(cfg, s, a, clock, up), ApplyInboundPolicy(cfg.policy, a, s.table);
    TableAfter(cfg, s, a, clock, up);
    AdmittedItems(cfg, a, s.table);
    if !LacksToken(a) && admitted.Some? {
      PlanGood(cfg.name, admitted.value, s.table, clock);
      GoodUpToPorts(cfg.name, o.state.table, Planned(cfg.name, admitted.value, s.table, clock).next);
    }
    forall x, u | x in o.sends && x.SendUpdate? && u in x.items ensures GoodItem(cfg.name, x.to, u) {
      UpdatesSent(cfg, s, a, clock, up, x);
      SendGood(cfg, s, a, admitted.value, clock, x, u);
    }
  }

  lemma SendGood(cfg: NodeConfig, s: BusState, a: Action, f: Action, clock: int, x: Send, u: UpdateItem)
    requires GoodTable(cfg.name, Planned(cfg.name, f, s.table, clock).next) && GoodChanges(cfg.name, Planned(cfg.name, f, s.table, clock).changes)
    requires x.SendUpdate? && u in x.items
    requires var plan := PlanPorts(Planned(cfg.name, f, s.table, clock), s.pool);
             exists p :: p in plan.next.peers && p.status == Connected && x.to == PeerName(p)
               && x.items == if a.InternalProtocolConnected? then FullSync(cfg, p, plan.next) else ItemsFor(cfg, p, plan.changes)
    ensures GoodItem(cfg.name, x.to, u)
  {
    var ribPlan := Planned(cfg.name, f, s.table, clock);
    var plan := PlanPorts(ribPlan, s.pool);
    StampingKeepsRoutes(ribPlan, s.pool);
    GoodUpToPorts(cfg.name, plan.next, ribPlan.next);
    GoodChangesUpToPorts(cfg.name, plan.changes, ribPlan.changes);
    var p :| p in plan.next.peers && p.status == Connected && x.to == PeerName(p)
      && x.items == if a.InternalProtocolConnected? then FullSync(cfg, p, plan.next) else ItemsFor(cfg, p, plan.changes);
    if a.InternalProtocolConnected? {
      SyncGood(cfg, p, plan.next, u);
    } else {
      ItemsGood(cfg, p, plan.changes, u);
    }
  }

  lemma DispatchAtKeeps(net: Net, node: string, a: Action, clock: int, up: set<string>)
    requires PathVectors(net) && node in net.nodes && (a.LocalPeerCreate? ==> a.info.name != node)
    requires a.InternalProtocolUpdate? ==> forall u :: u in a.items && u.verb.Add? ==> GoodItem(a.info.name, node, u)
    ensures PathVectors(DispatchAt(net, node, a, clock, up))
  {
    DispatchGood(net.cfgs[node], net.nodes[node], a, clock, up);
    var o := Dispatched(net.cfgs[node], net.nodes[node], a, clock, up);
    var net' := DispatchAt(net, node, a, clock, up);
    forall m, u | m in net'.flight && u in m.items ensures GoodItem(m.src, m.dst, u) {
      if m !in net.flight {
        assert m in Launched(node, o.sends);
        assert SendUpdate(m.dst, m.items) in o.sends;
      }
    }
  }

  lemma StepKeepsPathVectors(net: Net, e: Event)
    requires PathVectors(net) && Enabled(net, e)
    ensures PathVectors(Exec(net, e))
  {
    match e
    case Local(node, a, clock, up) => DispatchAtKeeps(net, node, a, clock, up);
    case Deliver(msg, info, clock, up) =>
      var rest := net.(flight := net.flight - multiset{msg});
      if SenderChecks(msg.src, msg.items) {
        DispatchAtKeeps(rest, msg.dst, InternalProtocolUpdate(info, msg.items), clock, up);
      }
    case Lose(msg) =>
  }

  /** Path vectors hold in every state of every run, so neither loop detection nor the sender check ever rejects a
      message these nodes built. */
  lemma {:induction false} PathVectorsAlways(net: Net, es: seq<Event>)
    requires PathVectors(net) && CanRun(net, es)
    ensures PathVectors(RunNet(net, es))
    ensures forall m :: m in RunNet(net, es).flight ==> SenderChecks(m.src, m.items) && forall u :: u in m.items ==> m.dst !in u.nodePath
    decreases es
  {
    if |es| > 0 {
      StepKeepsPathVectors(net, es[0]);
      PathVectorsAlways(Exec(net, es[0]), es[1..]);
    }
  }

  /** An update with a path that does not start at its sender is refused whole: it is gone and nothing else has changed. */
  lemma ForgedIsRefused(net: Net, msg: Msg, info: PeerInfo, clock: int, up: set<string>, u: UpdateItem)
    requires Configured(net) && Enabled(net, Deliver(msg, info, clock, up))
    requires u in msg.items && |u.nodePath| > 0 && u.nodePath[0] != msg.src
    ensures Exec(net, Deliver(msg, info, clock, up)) == net.(flight := net.flight - multiset{msg})
  {
  }

  ghost predicate Quiet(net: Net) {
    && Configured(net) && net.flight == multiset{}
    && forall n :: n in net.nodes ==> net.nodes[n].table == EmptyTable
  }

  /** In particular from empty tables and a silent network: every message ever in flight passes both checks. */
  lemma PathVectorsFromQuiet(net: Net, es: seq<Event>)
    requires Quiet(net) && CanRun(net, es)
    ensures PathVectors(RunNet(net, es))
    ensures forall m :: m in RunNet(net, es).flight ==> SenderChecks(m.src, m.items) && forall u :: u in m.items ==> m.dst !in u.nodePath
  {
    PathVectorsAlways(net, es);
  }
}
