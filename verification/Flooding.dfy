/** Announcements over fixed, lossless sessions: flooding converges to shortest paths and terminates. */
module Flooding {
  import opened KeyedLists
  import opened RouteTypes
  import opened Rib
  import opened RibTheorems
  import opened UpdateLoop
  import opened PortAllocator
  import opened BusSpec
  import opened PortErasure
  import opened DispatchFacts
  import opened Network

  /** `links[u]` are the peers `u` has a connected session to. */
  type Links = map<string, set<string>>

  function ConnectedNames(t: RouteTable): set<string> {
    set p | p in t.peers && p.status == Connected :: PeerName(p)
  }

  /** No node has a route policy. */
  ghost predicate Plain(net: Net) {
    Configured(net) && forall n :: n in net.cfgs ==> net.cfgs[n].policy.NoPolicy?
  }

  /** The nodes and sessions are those of `links`, and nothing else about a session matters. */
  ghost predicate Sessions(links: Links, net: Net) {
    && Plain(net)
    && net.nodes.Keys == links.Keys
    && (forall u :: u in links ==> links[u] <= links.Keys && u !in links[u])
    && (forall u :: u in links ==> ConnectedNames(net.nodes[u].table) == links[u])
  }

  function HeldAt(net: Net, v: string, k: RouteKey): Option<InternalRoute>
    requires v in net.nodes
  {
    Find(KeyOf, net.nodes[v].table.internal, k)
  }

  /** `v` holds a route for `k` of at most `bound` hops. */
  ghost predicate Holds(net: Net, v: string, k: RouteKey, bound: int) {
    v in net.nodes && HeldAt(net, v, k).Some? && |HeldAt(net, v, k).value.nodePath| <= bound
  }

  ghost predicate Originates(net: Net, o: string, name: string) {
    o in net.nodes && Find(ChannelName, net.nodes[o].table.local, name).Some?
  }

  /** Announcements travel along `walk` from its last node to its first. */
  ghost predicate Walk(links: Links, walk: seq<string>) {
    && |walk| > 0
    && (forall i :: 0 <= i < |walk| ==> walk[i] in links)
    && (forall i :: 0 <= i < |walk| - 1 ==> walk[i] in links[walk[i + 1]])
  }

  /** A path is backed by the network: it is a walk to the holder, its last node originates the route and each node on
      the way holds a route at least as short as the rest of the path. */
  ghost predicate Backed(links: Links, net: Net, holder: string, k: RouteKey, path: seq<string>) {
    && Walk(links, [holder] + path)
    && |path| > 0 && path[|path| - 1] == k.origin && Originates(net, k.origin, k.name)
    && forall i :: 0 <= i < |path| - 1 ==> Holds(net, path[i], k, |path| - 1 - i)
  }

  /** A message on its way from `u` to `v` offers `path` for `k`. */
  ghost predicate Offered(net: Net, u: string, v: string, k: RouteKey, path: seq<string>) {
    exists m, x :: m in net.flight && m.src == u && m.dst == v && x in m.items && ItemKey(x) == k && x.nodePath == path
  }

  /** Everything `u` knows and may tell `v` has arrived or is on its way. */
  ghost predicate Told(net: Net, u: string, v: string)
    requires u in net.nodes && v in net.nodes
  {
    && (forall ch :: ch in net.nodes[u].table.local ==>
          Holds(net, v, RouteKey(ch.name, u), 1) || Offered(net, u, v, RouteKey(ch.name, u), [u]))
    && (forall r :: r in net.nodes[u].table.internal && v !in r.nodePath ==>
          Holds(net, v, KeyOf(r), |r.nodePath| + 1) || Offered(net, u, v, KeyOf(r), [u] + r.nodePath))
  }

  ghost predicate BackedItem(links: Links, net: Net, m: Msg, x: UpdateItem) {
    x.verb.Add? && Backed(links, net, m.dst, ItemKey(x), x.nodePath)
  }

  ghost predicate NodeFlood(links: Links, net: Net, v: string)
    requires net.nodes.Keys == links.Keys && v in links
  {
    && WellFormed(v, net.nodes[v].table)
    && (forall r :: r in net.nodes[v].table.internal ==> !r.isStale && Backed(links, net, v, KeyOf(r), r.nodePath))
    && (forall w :: w in links[v] ==> w in links && Told(net, v, w))
  }

  /** The invariant of announcement runs. */
  ghost predicate FloodInv(links: Links, net: Net) {
    && Sessions(links, net)
    && PathVectors(net)
    && (forall v :: v in links ==> NodeFlood(links, net, v))
    && (forall m :: m in net.flight ==> m.src in links && m.dst in links[m.src])
    && (forall m, x :: m in net.flight && x in m.items ==> BackedItem(links, net, m, x))
  }

  // -------------------------------------------------------------------------
  // Convergence
  // -------------------------------------------------------------------------

  lemma OneHop(links: Links, net: Net, u: string, v: string, k: RouteKey, bound: int)
    requires FloodInv(links, net) && net.flight == multiset{} && u in links && v in links[u] && v != k.origin
    requires Holds(net, u, k, bound)
    ensures v in links && Holds(net, v, k, bound + 1)
  {
    assert NodeFlood(links, net, u);
    var r := HeldAt(net, u, k).value;
    assert r in net.nodes[u].table.internal && KeyOf(r) == k;
    assert Told(net, u, v);
    assert Backed(links, net, u, k, r.nodePath);
    if v in r.nodePath {
      var i :| 0 <= i < |r.nodePath| && r.nodePath[i] == v;
      assert i != |r.nodePath| - 1;
      assert Holds(net, r.nodePath[i], k, |r.nodePath| - 1 - i);
    } else {
      assert !Offered(net, u, v, k, [u] + r.nodePath);
    }
  }

  lemma {:induction false} WalkHeld(links: Links, net: Net, name: string, walk: seq<string>)
    requires FloodInv(links, net) && net.flight == multiset{} && Walk(links, walk)
    requires Originates(net, walk[|walk| - 1], name) && walk[0] != walk[|walk| - 1]
    ensures Holds(net, walk[0], RouteKey(name, walk[|walk| - 1]), |walk| - 1)
    decreases |walk|
  {
    var o := walk[|walk| - 1];
    var v, u := walk[0], walk[1];
    assert v in links[u];
    assert forall i :: 0 <= i < |walk[1..]| ==> walk[1..][i] == walk[i + 1];
    if u == o {
      var ch := Find(ChannelName, net.nodes[o].table.local, name).value;
      assert NodeFlood(links, net, o) && Told(net, o, v);
      assert !Offered(net, o, v, RouteKey(ch.name, o), [o]);
      assert |walk| >= 2;
    } else {
      WalkHeld(links, net, name, walk[1..]);
      OneHop(links, net, u, v, RouteKey(name, o), |walk| - 2);
    }
  }

  /** `v` is at `hops` from `o`: some walk has that length and none is shorter. */
  ghost predicate HopDistance(links: Links, v: string, o: string, hops: nat) {
    && (exists walk :: Walk(links, walk) && walk[0] == v && walk[|walk| - 1] == o && |walk| == hops + 1)
    && (forall walk :: Walk(links, walk) && walk[0] == v && walk[|walk| - 1] == o ==> |walk| >= hops + 1)
  }

  ghost predicate Reachable(links: Links, v: string, o: string) {
    exists walk :: Walk(links, walk) && walk[0] == v && walk[|walk| - 1] == o
  }

  /** Once no message is in flight, a node other than the origin holds a route exactly when the origin announces it and
      can reach the node, and then its path length is the hop distance. */
  lemma QuietIsConverged(links: Links, net: Net, v: string, k: RouteKey)
    requires FloodInv(links, net) && net.flight == multiset{} && v in links && k.origin in links && v != k.origin
    ensures HeldAt(net, v, k).Some? <==> Originates(net, k.origin, k.name) && Reachable(links, v, k.origin)
    ensures HeldAt(net, v, k).Some? ==> HopDistance(links, v, k.origin, |HeldAt(net, v, k).value.nodePath|)
  {
    assert NodeFlood(links, net, v);
    var held := HeldAt(net, v, k);
    if held.Some? {
      assert Backed(links, net, v, k, held.value.nodePath);
      var walk := [v] + held.value.nodePath;
      assert Walk(links, walk) && walk[0] == v && walk[|walk| - 1] == k.origin;
    }
    forall walk | Walk(links, walk) && walk[0] == v && walk[|walk| - 1] == k.origin && Originates(net, k.origin, k.name)
      ensures held.Some? && |held.value.nodePath| + 1 <= |walk|
    {
      WalkHeld(links, net, k.name, walk);
    }
  }

  /** A node never holds an internal route to one of its own channels. */
  lemma OriginHoldsNone(links: Links, net: Net, k: RouteKey)
    requires FloodInv(links, net) && k.origin in links
    ensures HeldAt(net, k.origin, k).None?
  {
    assert NodeFlood(links, net, k.origin);
    forall r | r in net.nodes[k.origin].table.internal ensures KeyOf(r) != k {
      assert Backed(links, net, k.origin, KeyOf(r), r.nodePath);
      assert r.nodePath[|r.nodePath| - 1] in r.nodePath;
    }
  }

  // -------------------------------------------------------------------------
  // One delivery, seen from the table of the receiver
  // -------------------------------------------------------------------------

  ghost predicate AllFresh(rs: seq<InternalRoute>) {
    forall r :: r in rs ==> !r.isStale
  }

  ghost predicate HeldWithin(rs: seq<InternalRoute>, k: RouteKey, bound: int) {
    Find(KeyOf, rs, k).Some? && |Find(KeyOf, rs, k).value.nodePath| <= bound
  }

  ghost predicate LearnedFrom(c: RouteChange, self: string, from: PeerInfo, us: seq<UpdateItem>) {
    !c.Removed? && exists u :: u in us && self !in u.nodePath && c.x == OfPeer(Learned(from, u))
  }

  lemma StepImproves(self: string, from: PeerInfo, u: UpdateItem, routes: seq<InternalRoute>, k: RouteKey, bound: int)
    requires u.verb.Add? && AllFresh(routes)
    ensures AllFresh(ItemStep(self, from, u, routes).routes)
    ensures HeldWithin(routes, k, bound) || (k == ItemKey(u) && self !in u.nodePath && |u.nodePath| <= bound)
            ==> HeldWithin(ItemStep(self, from, u, routes).routes, k, bound)
  {
    FindStep(self, from, u, routes, k);
  }

  /** Announcements only ever shorten routes, and what was offered is held at that length or less. */
  lemma {:induction false} LoopImproves(self: string, from: PeerInfo, us: seq<UpdateItem>, routes: seq<InternalRoute>, k: RouteKey, bound: int)
    requires AllFresh(routes) && forall u :: u in us ==> u.verb.Add?
    ensures AllFresh(ItemLoop(self, from, us, routes).routes)
    ensures HeldWithin(routes, k, bound) || (exists u :: u in us && ItemKey(u) == k && self !in u.nodePath && |u.nodePath| <= bound)
            ==> HeldWithin(ItemLoop(self, from, us, routes).routes, k, bound)
  {
    if |us| > 0 {
      assert us[0] in us;
      StepImproves(self, from, us[0], routes, k, bound);
      LoopImproves(self, from, us[1..], ItemStep(self, from, us[0], routes).routes, k, bound);
      assert forall u :: u in us <==> u == us[0] || u in us[1..];
    }
  }

  /** Every change is a route just learned, and every new route is a change. */
  lemma {:induction false} LoopReportsLearned(self: string, from: PeerInfo, us: seq<UpdateItem>, routes: seq<InternalRoute>)
    requires forall u :: u in us ==> u.verb.Add?
    ensures var e := ItemLoop(self, from, us, routes);
            && (forall c :: c in e.changes ==> LearnedFrom(c, self, from, us))
            && (forall r :: r in e.routes ==> r in routes || exists c :: c in e.changes && c.x == OfPeer(r))
  {
    if |us| > 0 {
      assert us[0] in us;
      var step := ItemStep(self, from, us[0], routes);
      LoopReportsLearned(self, from, us[1..], step.routes);
      var rest := ItemLoop(self, from, us[1..], step.routes);
      var e := ItemLoop(self, from, us, routes);
      forall c | c in e.changes ensures LearnedFrom(c, self, from, us) {
        if c !in step.changes {
          assert LearnedFrom(c, self, from, us[1..]);
        }
      }
      forall r | r in e.routes ensures r in routes || exists c :: c in e.changes && c.x == OfPeer(r) {
        if r in step.routes {
          assert r in routes || (|step.changes| == 1 && step.changes[0] in e.changes && step.changes[0].x == OfPeer(r));
        } else {
          var c :| c in rest.changes && c.x == OfPeer(r);
          assert c in e.changes;
        }
      }
    }
  }

  // -------------------------------------------------------------------------
  // Steps
  // -------------------------------------------------------------------------

  /** Announcement runs: new local routes and deliveries, every send reaching its connected peer. */
  predicate Announcing(links: Links, net: Net, e: Event) {
    match e
    case Local(node, a, _, up) => a.LocalRouteCreate? && node in links && links[node] <= up
    case Deliver(msg, _, _, up) => msg.dst in links && links[msg.dst] <= up
    case Lose(_) => false
  }

  /** Nothing held is forgotten or lengthened and no session changes. */
  ghost predicate Grows(links: Links, net: Net, net': Net) {
    && Sessions(links, net')
    && (forall v, k, bound :: Holds(net, v, k, bound) ==> Holds(net', v, k, bound))
    && (forall o, name :: Originates(net, o, name) ==> Originates(net', o, name))
  }

  lemma BackedGrows(links: Links, net: Net, net': Net, holder: string, k: RouteKey, path: seq<string>)
    requires Grows(links, net, net') && Backed(links, net, holder, k, path)
    ensures Backed(links, net', holder, k, path)
  {
  }

  /** A backed route held by `v` makes a backed offer to each of its sessions. */
  lemma BackedExtends(links: Links, net: Net, v: string, w: string, k: RouteKey, path: seq<string>)
    requires Backed(links, net, v, k, path) && Holds(net, v, k, |path|)
    requires v in links && w in links && w in links[v]
    ensures Backed(links, net, w, k, [v] + path)
  {
    var longer := [v] + path;
    assert [w] + longer == [w] + ([v] + path);
    forall i | 0 <= i < |[w] + longer| - 1 ensures ([w] + longer)[i] in links[([w] + longer)[i + 1]] {
      if i > 0 {
        assert ([w] + longer)[i] == ([v] + path)[i - 1] && ([w] + longer)[i + 1] == ([v] + path)[i];
      }
    }
    forall i | 0 <= i < |longer| - 1 ensures Holds(net, longer[i], k, |longer| - 1 - i) {
      if i > 0 {
        assert longer[i] == path[i - 1];
        assert Holds(net, path[i - 1], k, |path| - 1 - (i - 1));
      }
    }
  }

  lemma HeldUpToPorts(xs: seq<InternalRoute>, ys: seq<InternalRoute>, k: RouteKey)
    requires SameRoutes(xs, ys)
    ensures Find(KeyOf, xs, k).Some? <==> Find(KeyOf, ys, k).Some?
    ensures Find(KeyOf, xs, k).Some? ==> Find(KeyOf, xs, k).value.nodePath == Find(KeyOf, ys, k).value.nodePath
  {
    SameKeyIndex(xs, ys, k);
    var i := IndexOf(KeyOf, xs, k);
    if i >= 0 {
      assert Core(xs[i]).nodePath == Core(ys[i]).nodePath;
    }
  }

  lemma UpdateKeepsSessions(self: string, info: PeerInfo, us: seq<UpdateItem>, t: RouteTable, clock: int)
    ensures var next := PlannedUpdate(self, info, us, t, clock).next;
            ConnectedNames(next) == ConnectedNames(t) && |next.peers| == |t.peers|
  {
    var ps, qs := t.peers, PlannedUpdate(self, info, us, t, clock).next.peers;
    assert |ps| == |qs| && forall i :: 0 <= i < |ps| ==> PeerName(ps[i]) == PeerName(qs[i]) && ps[i].status == qs[i].status;
    SameConnected(ps, qs);
  }

  /** The receiver's table after an update, up to ports. */
  lemma UpdatedTable(cfg: NodeConfig, s: BusState, info: PeerInfo, us: seq<UpdateItem>, clock: int, up: set<string>)
    requires cfg.policy.NoPolicy?
    ensures var t := Dispatched(cfg, s, InternalProtocolUpdate(info, us), clock, up).state.table;
            && SameRoutes(t.internal, ItemLoop(cfg.name, info, us, s.table.internal).routes)
            && SameChannels(t.local, s.table.local)
            && ConnectedNames(t) == ConnectedNames(s.table) && |t.peers| == |s.table.peers|
  {
    TableAfter(cfg, s, InternalProtocolUpdate(info, us), clock, up);
    UpdatedRoutesAre(cfg.name, info, us, s.table, clock);
    UpdateKeepsSessions(cfg.name, info, us, s.table, clock);
  }

  lemma SameConnected(ps: seq<PeerRecord>, qs: seq<PeerRecord>)
    requires |ps| == |qs| && forall i :: 0 <= i < |ps| ==> PeerName(ps[i]) == PeerName(qs[i]) && ps[i].status == qs[i].status
    ensures (set p | p in ps && p.status == Connected :: PeerName(p)) == (set p | p in qs && p.status == Connected :: PeerName(p))
  {
    forall p | p in ps && p.status == Connected ensures exists q :: q in qs && q.status == Connected && PeerName(q) == PeerName(p) {
      var i :| 0 <= i < |ps| && ps[i] == p;
      assert qs[i] in qs;
    }
    forall q | q in qs && q.status == Connected ensures exists p :: p in ps && p.status == Connected && PeerName(p) == PeerName(q) {
      var i :| 0 <= i < |qs| && qs[i] == q;
      assert ps[i] in ps;
    }
  }

  lemma NamesUpToPorts(xs: seq<DataChannel>, ys: seq<DataChannel>, name: string)
    requires SameChannels(xs, ys)
    ensures Find(ChannelName, xs, name).Some? <==> Find(ChannelName, ys, name).Some?
  {
    SameNameIndex(xs, ys, name);
  }

  ghost predicate GoodDelivery(links: Links, net: Net, msg: Msg, info: PeerInfo, up: set<string>) {
    && FloodInv(links, net)
    && msg in net.flight && msg.dst in links && info.name == msg.src && links[msg.dst] <= up
  }

  lemma DeliveryFacts(links: Links, net: Net, msg: Msg, info: PeerInfo, clock: int, up: set<string>)
    requires GoodDelivery(links, net, msg, info, up)
    ensures forall u :: u in msg.items ==> u.verb.Add? && msg.dst !in u.nodePath
    ensures SenderChecks(msg.src, msg.items) && AllFresh(net.nodes[msg.dst].table.internal)
    ensures PathVectors(Exec(net, Deliver(msg, info, clock, up)))
  {
    assert NodeFlood(links, net, msg.dst);
    forall u | u in msg.items ensures u.verb.Add? && msg.dst !in u.nodePath && u.nodePath[0] == msg.src {
      assert BackedItem(links, net, msg, u) && GoodItem(msg.src, msg.dst, u);
    }
    StepKeepsPathVectors(net, Deliver(msg, info, clock, up));
  }

  /** After a delivery its receiver holds what it held and what was offered, at that length or less. */
  lemma DeliveryHeld(links: Links, net: Net, msg: Msg, info: PeerInfo, clock: int, up: set<string>, k: RouteKey, bound: int)
    requires GoodDelivery(links, net, msg, info, up)
    requires HeldWithin(net.nodes[msg.dst].table.internal, k, bound) || exists u :: u in msg.items && ItemKey(u) == k && |u.nodePath| <= bound
    ensures Holds(Exec(net, Deliver(msg, info, clock, up)), msg.dst, k, bound)
  {
    DeliveryFacts(links, net, msg, info, clock, up);
    var v, s := msg.dst, net.nodes[msg.dst];
    UpdatedTable(net.cfgs[v], s, info, msg.items, clock, up);
    LoopImproves(v, info, msg.items, s.table.internal, k, bound);
    HeldUpToPorts(Exec(net, Deliver(msg, info, clock, up)).nodes[v].table.internal, ItemLoop(v, info, msg.items, s.table.internal).routes, k);
  }

  lemma DeliveryOriginates(links: Links, net: Net, msg: Msg, info: PeerInfo, clock: int, up: set<string>, o: string, name: string)
    requires GoodDelivery(links, net, msg, info, up) && Originates(net, o, name)
    ensures Originates(Exec(net, Deliver(msg, info, clock, up)), o, name)
  {
    DeliveryFacts(links, net, msg, info, clock, up);
    var v := msg.dst;
    UpdatedTable(net.cfgs[v], net.nodes[v], info, msg.items, clock, up);
    NamesUpToPorts(Exec(net, Deliver(msg, info, clock, up)).nodes[v].table.local, net.nodes[v].table.local, name);
  }

  lemma DeliverySessions(links: Links, net: Net, msg: Msg, info: PeerInfo, clock: int, up: set<string>)
    requires GoodDelivery(links, net, msg, info, up)
    ensures Sessions(links, Exec(net, Deliver(msg, info, clock, up)))
  {
    DeliveryFacts(links, net, msg, info, clock, up);
    UpdatedTable(net.cfgs[msg.dst], net.nodes[msg.dst], info, msg.items, clock, up);
  }

  lemma OthersUntouched(net: Net, msg: Msg, info: PeerInfo, clock: int, up: set<string>)
    requires Configured(net) && Enabled(net, Deliver(msg, info, clock, up))
    ensures var net' := Exec(net, Deliver(msg, info, clock, up));
            net'.nodes.Keys == net.nodes.Keys && forall a :: a in net.nodes && a != msg.dst ==> net'.nodes[a] == net.nodes[a]
  {
  }

  lemma HeldStays(links: Links, net: Net, msg: Msg, info: PeerInfo, clock: int, up: set<string>, x: string, k: RouteKey, bound: int)
    requires GoodDelivery(links, net, msg, info, up) && Holds(net, x, k, bound)
    ensures Holds(Exec(net, Deliver(msg, info, clock, up)), x, k, bound)
  {
    if x == msg.dst {
      DeliveryHeld(links, net, msg, info, clock, up, k, bound);
    } else {
      OthersUntouched(net, msg, info, clock, up);
    }
  }

  lemma DeliverGrows(links: Links, net: Net, msg: Msg, info: PeerInfo, clock: int, up: set<string>)
    requires GoodDelivery(links, net, msg, info, up)
    ensures Grows(links, net, Exec(net, Deliver(msg, info, clock, up)))
    ensures forall u :: u in msg.items ==> Holds(Exec(net, Deliver(msg, info, clock, up)), msg.dst, ItemKey(u), |u.nodePath|)
  {
    DeliverySessions(links, net, msg, info, clock, up);
    forall x, k, bound | Holds(net, x, k, bound) ensures Holds(Exec(net, Deliver(msg, info, clock, up)), x, k, bound) {
      HeldStays(links, net, msg, info, clock, up, x, k, bound);
    }
    forall o, name | Originates(net, o, name) ensures Originates(Exec(net, Deliver(msg, info, clock, up)), o, name) {
      DeliveryOriginates(links, net, msg, info, clock, up, o, name);
    }
    forall u | u in msg.items ensures Holds(Exec(net, Deliver(msg, info, clock, up)), msg.dst, ItemKey(u), |u.nodePath|) {
      DeliveryHeld(links, net, msg, info, clock, up, ItemKey(u), |u.nodePath|);
    }
  }

  lemma UpdateReports(self: string, a: Action, t: RouteTable, clock: int, c: RouteChange)
    requires a.InternalProtocolUpdate? && c in ItemLoop(self, a.info, a.items, t.internal).changes
    ensures Planned(self, a, t, clock) == PlannedUpdate(self, a.info, a.items, t, clock)
    ensures Planned(self, a, t, clock).changed && c in Planned(self, a, t, clock).changes
  {
  }

  lemma NewChangeOffered(net: Net, v: string, a: Action, clock: int, up: set<string>, c: RouteChange, w: string)
    requires Plain(net) && v in net.nodes && a.InternalProtocolUpdate?
    requires c in ItemLoop(v, a.info, a.items, net.nodes[v].table.internal).changes
    requires c.x.OfPeer? && Via(c.x.ir) != w && w !in c.x.ir.nodePath
    requires w in ConnectedNames(net.nodes[v].table) && w in up
    ensures exists x, u :: x in Dispatched(net.cfgs[v], net.nodes[v], a, clock, up).sends && x.SendUpdate? && x.to == w && u in x.items
              && TellsOf(v, w, c, u)
  {
    var t := net.nodes[v].table;
    UpdateReports(v, a, t, clock, c);
    UpdateKeepsSessions(v, a.info, a.items, t, clock);
    var next := Planned(v, a, t, clock).next;
    assert w in ConnectedNames(next);
    var p :| p in next.peers && p.status == Connected && PeerName(p) == w;
    ChangeTold(net.cfgs[v], net.nodes[v], a, clock, up, c, p);
  }

  lemma SendOffers(net: Net, v: string, a: Action, clock: int, up: set<string>, x: Send, u: UpdateItem)
    requires Plain(net) && v in net.nodes
    requires x in Dispatched(net.cfgs[v], net.nodes[v], a, clock, up).sends && x.SendUpdate? && u in x.items
    ensures Offered(DispatchAt(net, v, a, clock, up), v, x.to, ItemKey(u), u.nodePath)
  {
    var o := Dispatched(net.cfgs[v], net.nodes[v], a, clock, up);
    assert SendUpdate(x.to, x.items) in o.sends;
    var m := Msg(v, x.to, x.items);
    assert m in Launched(v, o.sends);
    assert m in DispatchAt(net, v, a, clock, up).flight;
  }

  lemma NewChangeLaunched(net: Net, v: string, a: Action, clock: int, up: set<string>, c: RouteChange, w: string)
    requires Plain(net) && v in net.nodes && a.InternalProtocolUpdate?
    requires c in ItemLoop(v, a.info, a.items, net.nodes[v].table.internal).changes
    requires c.x.OfPeer? && Via(c.x.ir) != w && w !in c.x.ir.nodePath
    requires w in ConnectedNames(net.nodes[v].table) && w in up
    ensures Offered(DispatchAt(net, v, a, clock, up), v, w, KeyOf(c.x.ir), [v] + c.x.ir.nodePath)
  {
    NewChangeOffered(net, v, a, clock, up, c, w);
    var x, u :| x in Dispatched(net.cfgs[v], net.nodes[v], a, clock, up).sends && x.SendUpdate? && x.to == w && u in x.items
      && TellsOf(v, w, c, u);
    SendOffers(net, v, a, clock, up, x, u);
  }

  /** The path of a new route is offered to every session that may hear it. */
  lemma ChangeOffered(net: Net, msg: Msg, info: PeerInfo, clock: int, up: set<string>, c: RouteChange, w: string)
    requires Plain(net) && Enabled(net, Deliver(msg, info, clock, up)) && SenderChecks(msg.src, msg.items)
    requires w in ConnectedNames(net.nodes[msg.dst].table) && w in up
    requires c in ItemLoop(msg.dst, info, msg.items, net.nodes[msg.dst].table.internal).changes
    requires c.x.OfPeer? && Via(c.x.ir) != w && w !in c.x.ir.nodePath
    ensures Offered(Exec(net, Deliver(msg, info, clock, up)), msg.dst, w, KeyOf(c.x.ir), [msg.dst] + c.x.ir.nodePath)
  {
    var rest := net.(flight := net.flight - multiset{msg});
    NewChangeLaunched(rest, msg.dst, InternalProtocolUpdate(info, msg.items), clock, up, c, w);
  }

  /** The planned twin of a route the receiver holds after a delivery. */
  lemma DeliveredTwin(links: Links, net: Net, msg: Msg, info: PeerInfo, clock: int, up: set<string>, r: InternalRoute) returns (q: InternalRoute)
    requires GoodDelivery(links, net, msg, info, up)
    requires r in Exec(net, Deliver(msg, info, clock, up)).nodes[msg.dst].table.internal
    ensures q in ItemLoop(msg.dst, info, msg.items, net.nodes[msg.dst].table.internal).routes
    ensures KeyOf(q) == KeyOf(r) && q.nodePath == r.nodePath && Via(q) == Via(r) && q.isStale == r.isStale
  {
    DeliveryFacts(links, net, msg, info, clock, up);
    var v, s := msg.dst, net.nodes[msg.dst];
    UpdatedTable(net.cfgs[v], s, info, msg.items, clock, up);
    var t' := Exec(net, Deliver(msg, info, clock, up)).nodes[v].table;
    var e := ItemLoop(v, info, msg.items, s.table.internal);
    var i :| 0 <= i < |t'.internal| && t'.internal[i] == r;
    q := e.routes[i];
    assert Core(q) == Core(r);
    assert Core(q).nodePath == Core(r).nodePath && KeyOf(Core(q)) == KeyOf(Core(r)) && Via(Core(q)) == Via(Core(r)) && Core(q).isStale == Core(r).isStale;
  }

  /** A route the receiver holds afterwards is one it held before, or was offered by the message and is now offered to
      every session that may hear it. */
  lemma NewRouteOffered(links: Links, net: Net, msg: Msg, info: PeerInfo, clock: int, up: set<string>, r: InternalRoute)
    requires GoodDelivery(links, net, msg, info, up)
    requires r in Exec(net, Deliver(msg, info, clock, up)).nodes[msg.dst].table.internal
    ensures !r.isStale
    ensures || (exists q :: q in net.nodes[msg.dst].table.internal && KeyOf(q) == KeyOf(r) && q.nodePath == r.nodePath)
            || (&& (exists u :: u in msg.items && ItemKey(u) == KeyOf(r) && u.nodePath == r.nodePath)
                && forall w :: w in links[msg.dst] && w !in r.nodePath ==>
                     Offered(Exec(net, Deliver(msg, info, clock, up)), msg.dst, w, KeyOf(r), [msg.dst] + r.nodePath))
  {
    DeliveryFacts(links, net, msg, info, clock, up);
    var routes := net.nodes[msg.dst].table.internal;
    var q := DeliveredTwin(links, net, msg, info, clock, up, r);
    LoopImproves(msg.dst, info, msg.items, routes, KeyOf(r), 0);
    LoopReportsLearned(msg.dst, info, msg.items, routes);
    if q !in routes {
      var c :| c in ItemLoop(msg.dst, info, msg.items, routes).changes && c.x == OfPeer(q);
      assert LearnedFrom(c, msg.dst, info, msg.items);
      var u :| u in msg.items && msg.dst !in u.nodePath && c.x == OfPeer(Learned(info, u));
      assert GoodItem(msg.src, msg.dst, u) && Via(q) in q.nodePath;
      forall w | w in links[msg.dst] && w !in r.nodePath
        ensures Offered(Exec(net, Deliver(msg, info, clock, up)), msg.dst, w, KeyOf(r), [msg.dst] + r.nodePath)
      {
        ChangeOffered(net, msg, info, clock, up, c, w);
      }
    }
  }

  // -------------------------------------------------------------------------
  // The invariant survives every step
  // -------------------------------------------------------------------------

  /** Every message of `net` is still in flight, or what it offered is held by its target. */
  ghost predicate Settled(net: Net, net': Net) {
    forall m :: m in net.flight ==> m in net'.flight || forall u :: u in m.items ==> Holds(net', m.dst, ItemKey(u), |u.nodePath|)
  }

  lemma OfferKept(net: Net, net': Net, a: string, b: string, k: RouteKey, path: seq<string>)
    requires Settled(net, net') && Offered(net, a, b, k, path)
    ensures Offered(net', a, b, k, path) || Holds(net', b, k, |path|)
  {
    var m, x :| m in net.flight && m.src == a && m.dst == b && x in m.items && ItemKey(x) == k && x.nodePath == path;
    if m in net'.flight {
      assert Offered(net', a, b, k, path);
    }
  }

  lemma ToldRouteKept(links: Links, net: Net, net': Net, a: string, b: string, k: RouteKey, path: seq<string>)
    requires Grows(links, net, net') && Settled(net, net')
    requires Holds(net, b, k, |path| + 1) || Offered(net, a, b, k, [a] + path)
    ensures Holds(net', b, k, |path| + 1) || Offered(net', a, b, k, [a] + path)
  {
    if !Holds(net, b, k, |path| + 1) {
      OfferKept(net, net', a, b, k, [a] + path);
    }
  }

  lemma ToldChannelKept(links: Links, net: Net, net': Net, a: string, b: string, k: RouteKey)
    requires Grows(links, net, net') && Settled(net, net')
    requires Holds(net, b, k, 1) || Offered(net, a, b, k, [a])
    ensures Holds(net', b, k, 1) || Offered(net', a, b, k, [a])
  {
    if !Holds(net, b, k, 1) {
      OfferKept(net, net', a, b, k, [a]);
    }
  }

  lemma BystanderKept(links: Links, net: Net, net': Net, a: string)
    requires Grows(links, net, net') && Settled(net, net') && a in links
    requires net.nodes.Keys == links.Keys && NodeFlood(links, net, a) && net'.nodes[a] == net.nodes[a]
    ensures NodeFlood(links, net', a)
  {
    var t := net.nodes[a].table;
    forall r | r in t.internal ensures Backed(links, net', a, KeyOf(r), r.nodePath) {
      BackedGrows(links, net, net', a, KeyOf(r), r.nodePath);
    }
    forall b | b in links[a] ensures b in links && Told(net', a, b) {
      assert Told(net, a, b);
      forall ch | ch in t.local
        ensures Holds(net', b, RouteKey(ch.name, a), 1) || Offered(net', a, b, RouteKey(ch.name, a), [a])
      {
        ToldChannelKept(links, net, net', a, b, RouteKey(ch.name, a));
      }
      forall r | r in t.internal && b !in r.nodePath
        ensures Holds(net', b, KeyOf(r), |r.nodePath| + 1) || Offered(net', a, b, KeyOf(r), [a] + r.nodePath)
      {
        ToldRouteKept(links, net, net', a, b, KeyOf(r), r.nodePath);
      }
    }
  }

  lemma DeliverSettles(links: Links, net: Net, msg: Msg, info: PeerInfo, clock: int, up: set<string>)
    requires GoodDelivery(links, net, msg, info, up)
    ensures Settled(net, Exec(net, Deliver(msg, info, clock, up)))
  {
    DeliverGrows(links, net, msg, info, clock, up);
    assert SenderChecks(msg.src, msg.items) by {
      DeliveryFacts(links, net, msg, info, clock, up);
    }
    var net' := Exec(net, Deliver(msg, info, clock, up));
    forall m | m in net.flight && m != msg ensures m in net'.flight {
      assert m in net.flight - multiset{msg};
    }
  }

  lemma LaunchedFrom(net: Net, msg: Msg, info: PeerInfo, clock: int, up: set<string>, m: Msg)
    requires Plain(net) && Enabled(net, Deliver(msg, info, clock, up)) && SenderChecks(msg.src, msg.items)
    requires m in Exec(net, Deliver(msg, info, clock, up)).flight && m !in net.flight
    ensures m.src == msg.dst
    ensures SendUpdate(m.dst, m.items) in Dispatched(net.cfgs[msg.dst], net.nodes[msg.dst], InternalProtocolUpdate(info, msg.items), clock, up).sends
  {
    var o := Dispatched(net.cfgs[msg.dst], net.nodes[msg.dst], InternalProtocolUpdate(info, msg.items), clock, up);
    assert m in Launched(msg.dst, o.sends);
  }

  lemma SentToConnected(cfg: NodeConfig, s: BusState, info: PeerInfo, us: seq<UpdateItem>, clock: int, up: set<string>, x: Send)
    requires cfg.policy.NoPolicy? && x in Dispatched(cfg, s, InternalProtocolUpdate(info, us), clock, up).sends && x.SendUpdate?
    ensures x.to in ConnectedNames(s.table)
  {
    SentToPeer(cfg, s, InternalProtocolUpdate(info, us), clock, up, x);
    ConnectedBefore(cfg.name, info, us, s.table, clock, x.to);
  }

  lemma ConnectedBefore(self: string, info: PeerInfo, us: seq<UpdateItem>, t: RouteTable, clock: int, name: string)
    requires exists p :: p in Planned(self, InternalProtocolUpdate(info, us), t, clock).next.peers && p.status == Connected && PeerName(p) == name
    ensures name in ConnectedNames(t)
  {
    UpdateKeepsSessions(self, info, us, t, clock);
  }

  lemma SentExtends(cfg: NodeConfig, s: BusState, info: PeerInfo, us: seq<UpdateItem>, clock: int, up: set<string>, x: Send, y: UpdateItem)
    requires cfg.policy.NoPolicy? && x in Dispatched(cfg, s, InternalProtocolUpdate(info, us), clock, up).sends && x.SendUpdate? && y in x.items
    requires forall u :: u in us ==> u.verb.Add?
    ensures y.verb.Add? && exists u :: u in us && ItemKey(y) == ItemKey(u) && y.nodePath == [cfg.name] + u.nodePath
  {
    var a := InternalProtocolUpdate(info, us);
    SentTells(cfg, s, a, clock, up, x, y);
    LoopReportsLearned(cfg.name, info, us, s.table.internal);
    var c :| c in Planned(cfg.name, a, s.table, clock).changes && TellsOf(cfg.name, x.to, c, y);
    assert LearnedFrom(c, cfg.name, info, us);
  }

  /** What the receiver launches extends what it was offered. */
  lemma LaunchedExtends(links: Links, net: Net, msg: Msg, info: PeerInfo, clock: int, up: set<string>, m: Msg)
    requires GoodDelivery(links, net, msg, info, up)
    requires m in Exec(net, Deliver(msg, info, clock, up)).flight && m !in net.flight
    ensures m.src == msg.dst && m.dst in links[msg.dst]
    ensures forall y :: y in m.items ==> y.verb.Add? && exists u :: u in msg.items && ItemKey(y) == ItemKey(u) && y.nodePath == [msg.dst] + u.nodePath
  {
    DeliveryFacts(links, net, msg, info, clock, up);
    LaunchedFrom(net, msg, info, clock, up, m);
    var x := SendUpdate(m.dst, m.items);
    SentToConnected(net.cfgs[msg.dst], net.nodes[msg.dst], info, msg.items, clock, up, x);
    forall y | y in m.items
      ensures y.verb.Add? && exists u :: u in msg.items && ItemKey(y) == ItemKey(u) && y.nodePath == [msg.dst] + u.nodePath
    {
      SentExtends(net.cfgs[msg.dst], net.nodes[msg.dst], info, msg.items, clock, up, x, y);
    }
  }

  lemma LaunchedBacked(links: Links, net: Net, msg: Msg, info: PeerInfo, clock: int, up: set<string>, m: Msg, y: UpdateItem)
    requires GoodDelivery(links, net, msg, info, up)
    requires m in Exec(net, Deliver(msg, info, clock, up)).flight && y in m.items
    ensures BackedItem(links, Exec(net, Deliver(msg, info, clock, up)), m, y)
  {
    var net' := Exec(net, Deliver(msg, info, clock, up));
    DeliverGrows(links, net, msg, info, clock, up);
    if m in net.flight {
      assert BackedItem(links, net, m, y);
      BackedGrows(links, net, net', m.dst, ItemKey(y), y.nodePath);
    } else {
      LaunchedExtends(links, net, msg, info, clock, up, m);
      var u :| u in msg.items && ItemKey(y) == ItemKey(u) && y.nodePath == [msg.dst] + u.nodePath;
      assert BackedItem(links, net, msg, u);
      BackedGrows(links, net, net', msg.dst, ItemKey(u), u.nodePath);
      BackedExtends(links, net', msg.dst, m.dst, ItemKey(u), u.nodePath);
    }
  }

  lemma ReceiverKept(links: Links, net: Net, msg: Msg, info: PeerInfo, clock: int, up: set<string>)
    requires GoodDelivery(links, net, msg, info, up)
    ensures Sessions(links, Exec(net, Deliver(msg, info, clock, up)))
    ensures NodeFlood(links, Exec(net, Deliver(msg, info, clock, up)), msg.dst)
  {
    var net' := Exec(net, Deliver(msg, info, clock, up));
    var v, s := msg.dst, net.nodes[msg.dst];
    DeliverGrows(links, net, msg, info, clock, up);
    DeliverSettles(links, net, msg, info, clock, up);
    DeliveryFacts(links, net, msg, info, clock, up);
    assert NodeFlood(links, net, v);
    var t' := net'.nodes[v].table;
    DispatchKeepsWellFormed(net.cfgs[v], s, InternalProtocolUpdate(info, msg.items), clock, up);
    UpdatedTable(net.cfgs[v], s, info, msg.items, clock, up);
    forall r | r in t'.internal ensures !r.isStale && Backed(links, net', v, KeyOf(r), r.nodePath) {
      NewRouteOffered(links, net, msg, info, clock, up, r);
      if q :| q in s.table.internal && KeyOf(q) == KeyOf(r) && q.nodePath == r.nodePath {
        BackedGrows(links, net, net', v, KeyOf(q), q.nodePath);
      } else {
        var u :| u in msg.items && ItemKey(u) == KeyOf(r) && u.nodePath == r.nodePath;
        assert BackedItem(links, net, msg, u);
        BackedGrows(links, net, net', v, ItemKey(u), u.nodePath);
      }
    }
    forall w | w in links[v] ensures w in links && Told(net', v, w) {
      ReceiverTells(links, net, msg, info, clock, up, w);
    }
  }

  lemma ReceiverTells(links: Links, net: Net, msg: Msg, info: PeerInfo, clock: int, up: set<string>, w: string)
    requires GoodDelivery(links, net, msg, info, up) && w in links[msg.dst]
    requires Sessions(links, Exec(net, Deliver(msg, info, clock, up)))
    ensures w in links && Told(Exec(net, Deliver(msg, info, clock, up)), msg.dst, w)
  {
    var net' := Exec(net, Deliver(msg, info, clock, up));
    var v, s := msg.dst, net.nodes[msg.dst];
    DeliverGrows(links, net, msg, info, clock, up);
    DeliverSettles(links, net, msg, info, clock, up);
    UpdatedTable(net.cfgs[v], s, info, msg.items, clock, up);
    DeliveryFacts(links, net, msg, info, clock, up);
    assert NodeFlood(links, net, v) && Told(net, v, w);
    var t' := net'.nodes[v].table;
    forall ch | ch in t'.local
      ensures Holds(net', w, RouteKey(ch.name, v), 1) || Offered(net', v, w, RouteKey(ch.name, v), [v])
    {
      var i :| 0 <= i < |t'.local| && t'.local[i] == ch;
      assert s.table.local[i] in s.table.local && Portless(s.table.local[i]).name == Portless(ch).name;
      ToldChannelKept(links, net, net', v, w, RouteKey(ch.name, v));
    }
    forall r | r in t'.internal && w !in r.nodePath
      ensures Holds(net', w, KeyOf(r), |r.nodePath| + 1) || Offered(net', v, w, KeyOf(r), [v] + r.nodePath)
    {
      NewRouteOffered(links, net, msg, info, clock, up, r);
      if q :| q in s.table.internal && KeyOf(q) == KeyOf(r) && q.nodePath == r.nodePath {
        ToldRouteKept(links, net, net', v, w, KeyOf(q), q.nodePath);
      }
    }
  }

  lemma DeliverKeeps(links: Links, net: Net, msg: Msg, info: PeerInfo, clock: int, up: set<string>)
    requires GoodDelivery(links, net, msg, info, up)
    ensures FloodInv(links, Exec(net, Deliver(msg, info, clock, up)))
  {
    var net' := Exec(net, Deliver(msg, info, clock, up));
    DeliverGrows(links, net, msg, info, clock, up);
    DeliverSettles(links, net, msg, info, clock, up);
    DeliveryFacts(links, net, msg, info, clock, up);
    forall a | a in links ensures NodeFlood(links, net', a) {
      if a == msg.dst {
        ReceiverKept(links, net, msg, info, clock, up);
      } else {
        assert NodeFlood(links, net, a);
        BystanderKept(links, net, net', a);
      }
    }
    forall m | m in net'.flight ensures m.src in links && m.dst in links[m.src] {
      if m !in net.flight {
        LaunchedExtends(links, net, msg, info, clock, up, m);
      }
    }
    forall m, y | m in net'.flight && y in m.items ensures BackedItem(links, net', m, y) {
      LaunchedBacked(links, net, msg, info, clock, up, m, y);
    }
  }

  // -------------------------------------------------------------------------
  // Announcing a local route
  // -------------------------------------------------------------------------

  ghost predicate GoodAnnouncement(links: Links, net: Net, o: string, ch: DataChannel, up: set<string>) {
    && FloodInv(links, net) && o in links && links[o] <= up
    && Find(ChannelName, net.nodes[o].table.local, ch.name).None?
  }

  function Announced(net: Net, o: string, ch: DataChannel, clock: int, up: set<string>): Net
    requires o in net.nodes && o in net.cfgs
  {
    DispatchAt(net, o, LocalRouteCreate(ch), clock, up)
  }

  lemma AnnouncedTable(cfg: NodeConfig, s: BusState, ch: DataChannel, clock: int, up: set<string>)
    requires cfg.policy.NoPolicy? && Find(ChannelName, s.table.local, ch.name).None?
    ensures var t := Dispatched(cfg, s, LocalRouteCreate(ch), clock, up).state.table;
            SameRoutes(t.internal, s.table.internal) && SameChannels(t.local, s.table.local + [ch]) && t.peers == s.table.peers
  {
    TableAfter(cfg, s, LocalRouteCreate(ch), clock, up);
  }

  lemma AnnouncedLookups(cfg: NodeConfig, s: BusState, ch: DataChannel, clock: int, up: set<string>, name: string, k: RouteKey)
    requires cfg.policy.NoPolicy? && Find(ChannelName, s.table.local, ch.name).None?
    ensures var t := Dispatched(cfg, s, LocalRouteCreate(ch), clock, up).state.table;
            && (Find(ChannelName, t.local, name).Some? <==> Find(ChannelName, s.table.local, name).Some? || name == ch.name)
            && (Find(KeyOf, t.internal, k).Some? <==> Find(KeyOf, s.table.internal, k).Some?)
            && (Find(KeyOf, t.internal, k).Some? ==> Find(KeyOf, t.internal, k).value.nodePath == Find(KeyOf, s.table.internal, k).value.nodePath)
  {
    AnnouncedTable(cfg, s, ch, clock, up);
    var t := Dispatched(cfg, s, LocalRouteCreate(ch), clock, up).state.table;
    NamesUpToPorts(t.local, s.table.local + [ch], name);
    FindApply(ChannelName, Added(ch), s.table.local, name);
    HeldUpToPorts(t.internal, s.table.internal, k);
  }

  lemma AnnounceGrows(links: Links, net: Net, o: string, ch: DataChannel, clock: int, up: set<string>)
    requires Sessions(links, net) && o in links && Find(ChannelName, net.nodes[o].table.local, ch.name).None?
    ensures Grows(links, net, Announced(net, o, ch, clock, up)) && Settled(net, Announced(net, o, ch, clock, up))
    ensures Originates(Announced(net, o, ch, clock, up), o, ch.name)
  {
    var net' := Announced(net, o, ch, clock, up);
    var cfg, s := net.cfgs[o], net.nodes[o];
    AnnouncedTable(cfg, s, ch, clock, up);
    forall x, k, bound | Holds(net, x, k, bound) ensures Holds(net', x, k, bound) {
      AnnouncedLookups(cfg, s, ch, clock, up, ch.name, k);
    }
    forall x, name | Originates(net, x, name) ensures Originates(net', x, name) {
      AnnouncedLookups(cfg, s, ch, clock, up, name, RouteKey(name, x));
    }
    AnnouncedLookups(cfg, s, ch, clock, up, ch.name, RouteKey(ch.name, o));
  }

  /** The new route is offered to every session of its origin. */
  lemma AnnouncementOffered(net: Net, o: string, ch: DataChannel, clock: int, up: set<string>, w: string)
    requires Plain(net) && o in net.nodes && Find(ChannelName, net.nodes[o].table.local, ch.name).None?
    requires w in ConnectedNames(net.nodes[o].table) && w in up
    ensures Offered(Announced(net, o, ch, clock, up), o, w, RouteKey(ch.name, o), [o])
  {
    var a := LocalRouteCreate(ch);
    var p :| p in net.nodes[o].table.peers && p.status == Connected && PeerName(p) == w;
    var c: RouteChange := Added(OfLocal(ch));
    ChangeTold(net.cfgs[o], net.nodes[o], a, clock, up, c, p);
    var x, u :| x in Dispatched(net.cfgs[o], net.nodes[o], a, clock, up).sends && x.SendUpdate? && x.to == w && u in x.items
      && TellsOf(o, w, c, u);
    SendOffers(net, o, a, clock, up, x, u);
  }

  lemma InternalTwin(t: RouteTable, u: RouteTable, r: InternalRoute) returns (q: InternalRoute)
    requires SameRoutes(t.internal, u.internal) && r in t.internal
    ensures q in u.internal && KeyOf(q) == KeyOf(r) && q.nodePath == r.nodePath && q.isStale == r.isStale
  {
    var i :| 0 <= i < |t.internal| && t.internal[i] == r;
    q := u.internal[i];
    assert Core(q) == Core(r) && KeyOf(Core(q)) == KeyOf(Core(r)) && Core(q).nodePath == Core(r).nodePath && Core(q).isStale == Core(r).isStale;
  }

  lemma AnnouncerTellsChannels(links: Links, net: Net, o: string, ch: DataChannel, clock: int, up: set<string>, w: string, x: DataChannel)
    requires GoodAnnouncement(links, net, o, ch, up) && w in links[o]
    requires x in Announced(net, o, ch, clock, up).nodes[o].table.local
    ensures var net' := Announced(net, o, ch, clock, up);
            Holds(net', w, RouteKey(x.name, o), 1) || Offered(net', o, w, RouteKey(x.name, o), [o])
  {
    var net' := Announced(net, o, ch, clock, up);
    var t, t' := net.nodes[o].table, net'.nodes[o].table;
    AnnouncedTable(net.cfgs[o], net.nodes[o], ch, clock, up);
    var i :| 0 <= i < |t'.local| && t'.local[i] == x;
    assert Portless(x).name == Portless((t.local + [ch])[i]).name;
    if i < |t.local| {
      assert t.local[i] in t.local;
      AnnounceGrows(links, net, o, ch, clock, up);
      assert NodeFlood(links, net, o) && Told(net, o, w);
      ToldChannelKept(links, net, net', o, w, RouteKey(x.name, o));
    } else {
      AnnouncementOffered(net, o, ch, clock, up, w);
    }
  }

  lemma AnnouncerTellsRoutes(links: Links, net: Net, o: string, ch: DataChannel, clock: int, up: set<string>, w: string, r: InternalRoute)
    requires GoodAnnouncement(links, net, o, ch, up) && w in links[o]
    requires r in Announced(net, o, ch, clock, up).nodes[o].table.internal && w !in r.nodePath
    ensures var net' := Announced(net, o, ch, clock, up);
            Holds(net', w, KeyOf(r), |r.nodePath| + 1) || Offered(net', o, w, KeyOf(r), [o] + r.nodePath)
  {
    var net' := Announced(net, o, ch, clock, up);
    AnnouncedTable(net.cfgs[o], net.nodes[o], ch, clock, up);
    var q := InternalTwin(net'.nodes[o].table, net.nodes[o].table, r);
    AnnounceGrows(links, net, o, ch, clock, up);
    assert NodeFlood(links, net, o) && Told(net, o, w);
    ToldRouteKept(links, net, net', o, w, KeyOf(q), q.nodePath);
  }

  lemma AnnouncerTells(links: Links, net: Net, o: string, ch: DataChannel, clock: int, up: set<string>, w: string)
    requires GoodAnnouncement(links, net, o, ch, up) && w in links[o]
    ensures w in links && Told(Announced(net, o, ch, clock, up), o, w)
  {
    var net' := Announced(net, o, ch, clock, up);
    assert w in links by {
      assert NodeFlood(links, net, o);
    }
    forall x | x in net'.nodes[o].table.local
      ensures Holds(net', w, RouteKey(x.name, o), 1) || Offered(net', o, w, RouteKey(x.name, o), [o])
    {
      AnnouncerTellsChannels(links, net, o, ch, clock, up, w, x);
    }
    forall r | r in net'.nodes[o].table.internal && w !in r.nodePath
      ensures Holds(net', w, KeyOf(r), |r.nodePath| + 1) || Offered(net', o, w, KeyOf(r), [o] + r.nodePath)
    {
      AnnouncerTellsRoutes(links, net, o, ch, clock, up, w, r);
    }
  }

  lemma AnnouncerKept(links: Links, net: Net, o: string, ch: DataChannel, clock: int, up: set<string>)
    requires GoodAnnouncement(links, net, o, ch, up)
    requires Sessions(links, Announced(net, o, ch, clock, up))
    ensures NodeFlood(links, Announced(net, o, ch, clock, up), o)
  {
    var net' := Announced(net, o, ch, clock, up);
    var t, t' := net.nodes[o].table, net'.nodes[o].table;
    AnnounceGrows(links, net, o, ch, clock, up);
    AnnouncedTable(net.cfgs[o], net.nodes[o], ch, clock, up);
    assert NodeFlood(links, net, o);
    DispatchKeepsWellFormed(net.cfgs[o], net.nodes[o], LocalRouteCreate(ch), clock, up);
    forall r | r in t'.internal ensures !r.isStale && Backed(links, net', o, KeyOf(r), r.nodePath) {
      var q := InternalTwin(t', t, r);
      BackedGrows(links, net, net', o, KeyOf(q), q.nodePath);
    }
    forall w | w in links[o] ensures w in links && Told(net', o, w) {
      AnnouncerTells(links, net, o, ch, clock, up, w);
    }
  }

  lemma AnnouncementLaunched(net: Net, o: string, ch: DataChannel, clock: int, up: set<string>, m: Msg)
    requires Plain(net) && o in net.nodes && Find(ChannelName, net.nodes[o].table.local, ch.name).None?
    requires m in Announced(net, o, ch, clock, up).flight && m !in net.flight
    ensures m.src == o && m.dst in ConnectedNames(net.nodes[o].table)
    ensures forall y :: y in m.items ==> y.verb.Add? && ItemKey(y) == RouteKey(ch.name, o) && y.nodePath == [o]
  {
    var a := LocalRouteCreate(ch);
    var cfg, s := net.cfgs[o], net.nodes[o];
    var x := SendUpdate(m.dst, m.items);
    assert m in Launched(o, Dispatched(cfg, s, a, clock, up).sends);
    UpdatesSent(cfg, s, a, clock, up, x);
    StampingKeepsRoutes(Planned(o, a, s.table, clock), s.pool);
    forall y | y in m.items ensures y.verb.Add? && ItemKey(y) == RouteKey(ch.name, o) && y.nodePath == [o] {
      SentTells(cfg, s, a, clock, up, x, y);
    }
  }

  lemma AnnouncementBacked(links: Links, net: Net, o: string, ch: DataChannel, clock: int, up: set<string>, w: string)
    requires GoodAnnouncement(links, net, o, ch, up) && w in links[o]
    ensures w in links && Backed(links, Announced(net, o, ch, clock, up), w, RouteKey(ch.name, o), [o])
  {
    AnnounceGrows(links, net, o, ch, clock, up);
    assert NodeFlood(links, net, o);
    assert [w] + [o] == [w, o];
  }

  lemma AnnounceFlight(links: Links, net: Net, o: string, ch: DataChannel, clock: int, up: set<string>, m: Msg)
    requires GoodAnnouncement(links, net, o, ch, up) && m in Announced(net, o, ch, clock, up).flight
    ensures m.src in links && m.dst in links[m.src]
    ensures forall y :: y in m.items ==> BackedItem(links, Announced(net, o, ch, clock, up), m, y)
  {
    var net' := Announced(net, o, ch, clock, up);
    if m in net.flight {
      AnnounceGrows(links, net, o, ch, clock, up);
      forall y | y in m.items ensures BackedItem(links, net', m, y) {
        assert BackedItem(links, net, m, y);
        BackedGrows(links, net, net', m.dst, ItemKey(y), y.nodePath);
      }
    } else {
      AnnouncementLaunched(net, o, ch, clock, up, m);
      AnnouncementBacked(links, net, o, ch, clock, up, m.dst);
    }
  }

  lemma AnnounceNodes(links: Links, net: Net, o: string, ch: DataChannel, clock: int, up: set<string>, a: string)
    requires GoodAnnouncement(links, net, o, ch, up) && a in links
    ensures Sessions(links, Announced(net, o, ch, clock, up)) && NodeFlood(links, Announced(net, o, ch, clock, up), a)
  {
    AnnounceGrows(links, net, o, ch, clock, up);
    if a == o {
      AnnouncerKept(links, net, o, ch, clock, up);
    } else {
      assert NodeFlood(links, net, a);
      BystanderKept(links, net, Announced(net, o, ch, clock, up), a);
    }
  }

  lemma AnnounceKeeps(links: Links, net: Net, o: string, ch: DataChannel, clock: int, up: set<string>)
    requires GoodAnnouncement(links, net, o, ch, up)
    ensures FloodInv(links, Announced(net, o, ch, clock, up))
  {
    var net' := Announced(net, o, ch, clock, up);
    AnnounceNodes(links, net, o, ch, clock, up, o);
    DispatchAtKeeps(net, o, LocalRouteCreate(ch), clock, up);
    forall a | a in links ensures NodeFlood(links, net', a) {
      AnnounceNodes(links, net, o, ch, clock, up, a);
    }
    forall m | m in net'.flight
      ensures m.src in links && m.dst in links[m.src] && forall y :: y in m.items ==> BackedItem(links, net', m, y)
    {
      AnnounceFlight(links, net, o, ch, clock, up, m);
    }
  }

  /** A channel whose name is taken is not announced again. */
  lemma DuplicateIgnored(net: Net, o: string, ch: DataChannel, clock: int, up: set<string>)
    requires Plain(net) && o in net.nodes && Find(ChannelName, net.nodes[o].table.local, ch.name).Some?
    ensures Announced(net, o, ch, clock, up) == net
  {
    assert Announced(net, o, ch, clock, up).nodes == net.nodes;
  }

  lemma StepKeepsFlood(links: Links, net: Net, e: Event)
    requires FloodInv(links, net) && Enabled(net, e) && Announcing(links, net, e)
    ensures FloodInv(links, Exec(net, e))
  {
    if e.Deliver? {
      DeliverKeeps(links, net, e.msg, e.info, e.clock, e.up);
    } else {
      assert Exec(net, e) == Announced(net, e.node, e.action.ch, e.clock, e.up);
      if Find(ChannelName, net.nodes[e.node].table.local, e.action.ch.name).None? {
        AnnounceKeeps(links, net, e.node, e.action.ch, e.clock, e.up);
      } else {
        DuplicateIgnored(net, e.node, e.action.ch, e.clock, e.up);
      }
    }
  }

  ghost predicate AnnouncementRun(links: Links, net: Net, es: seq<Event>): (possible: bool)
    requires Plain(net)
    ensures possible ==> CanRun(net, es)
    decreases es
  {
    |es| > 0 ==> Enabled(net, es[0]) && Announcing(links, net, es[0]) && AnnouncementRun(links, Exec(net, es[0]), es[1..])
  }

  lemma {:induction false} RunKeepsFlood(links: Links, net: Net, es: seq<Event>)
    requires FloodInv(links, net) && AnnouncementRun(links, net, es)
    ensures FloodInv(links, RunNet(net, es))
    decreases es
  {
    if |es| > 0 {
      StepKeepsFlood(links, net, es[0]);
      RunKeepsFlood(links, Exec(net, es[0]), es[1..]);
    }
  }

  /** Sessions are up, nothing has been announced and nothing is in flight. */
  ghost predicate FreshSessions(links: Links, net: Net) {
    && Sessions(links, net) && net.flight == multiset{}
    && forall n :: n in links ==>
         var t := net.nodes[n].table;
         t.local == [] && t.internal == [] && Unique(PeerName, t.peers) && forall p :: p in t.peers ==> PeerName(p) != n
  }

  lemma FreshIsFlood(links: Links, net: Net)
    requires FreshSessions(links, net)
    ensures FloodInv(links, net)
  {
    forall n | n in links ensures NodeFlood(links, net, n) {
      assert net.nodes[n].table.internal == [];
    }
  }

  /** Convergence: in any announcement run from fresh sessions, whenever nothing is in flight every node holds exactly
      the routes of the origins that can reach it, at hop distance. */
  lemma FloodingConverges(links: Links, net: Net, es: seq<Event>, v: string, k: RouteKey)
    requires FreshSessions(links, net) && AnnouncementRun(links, net, es) && v in links && k.origin in links && v != k.origin
    requires RunNet(net, es).flight == multiset{}
    ensures var end := RunNet(net, es);
            && v in end.nodes && k.origin in end.nodes
            && (HeldAt(end, v, k).Some? <==> Originates(end, k.origin, k.name) && Reachable(links, v, k.origin))
            && (HeldAt(end, v, k).Some? ==> HopDistance(links, v, k.origin, |HeldAt(end, v, k).value.nodePath|))
  {
    FreshIsFlood(links, net);
    RunKeepsFlood(links, net, es);
    QuietIsConverged(links, RunNet(net, es), v, k);
  }
}
