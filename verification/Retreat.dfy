/** Withdrawal runs: hard closes and deleted channels, with their withdrawals under way. */
module Retreat {
  import opened KeyedLists
  import opened RouteTypes
  import opened Rib
  import opened RibTheorems
  import opened UpdateLoop
  import opened BusSpec
  import opened PortErasure
  import opened DispatchFacts
  import opened Network
  import opened Flooding
  import opened Stability

  // -------------------------------------------------------------------------
  // One plan
  // -------------------------------------------------------------------------

  predicate HardClose(a: Action) { a.InternalProtocolClose? && a.code != TRANSPORT_ERROR }

  predicate AllRemoves(us: seq<UpdateItem>) { forall u :: u in us ==> u.verb.Remove? }

  /** Actions that only take routes away. */
  predicate Withdraws(a: Action) {
    a.LocalRouteDelete? || HardClose(a) || (a.InternalProtocolUpdate? && AllRemoves(a.items))
  }

  predicate Gone(k: RouteKey, xs: seq<InternalRoute>, ys: seq<InternalRoute>) {
    Find(KeyOf, xs, k).Some? && Find(KeyOf, ys, k).None?
  }

  /** Under `k` the route held stays or goes, and the report says which. */
  ghost predicate ShrinksAt(xs: seq<InternalRoute>, ys: seq<InternalRoute>, cs: seq<RouteChange>, k: RouteKey) {
    && (Find(KeyOf, ys, k).Some? ==> Find(KeyOf, ys, k) == Find(KeyOf, xs, k))
    && (Gone(k, xs, ys) ==> Removed(OfPeer(Find(KeyOf, xs, k).value)) in cs)
    && (forall c :: c in cs ==> c.Removed? && (c.x.OfPeer? && KeyOf(c.x.ir) == k ==> Gone(k, xs, ys)))
  }

  lemma StepShrinks(self: string, from: PeerInfo, u: UpdateItem, routes: seq<InternalRoute>, k: RouteKey)
    requires u.verb.Remove?
    ensures var e := ItemStep(self, from, u, routes);
            && ShrinksAt(routes, e.routes, e.changes, k) && (ItemKey(u) == k ==> Find(KeyOf, e.routes, k).None?)
            && (Gone(k, routes, e.routes) ==> ItemKey(u) == k) && forall c :: c in e.changes ==> c.x.OfPeer?
  {
    FindStep(self, from, u, routes, k);
  }

  /** A message of withdrawals: of each key it names nothing is left, and nothing else goes. */
  lemma {:induction false} LoopShrinks(self: string, from: PeerInfo, us: seq<UpdateItem>, routes: seq<InternalRoute>, k: RouteKey)
    requires AllRemoves(us)
    ensures var e := ItemLoop(self, from, us, routes);
            && ShrinksAt(routes, e.routes, e.changes, k) && forall c :: c in e.changes ==> c.x.OfPeer?
    ensures var e := ItemLoop(self, from, us, routes);
            if exists u :: u in us && ItemKey(u) == k then Find(KeyOf, e.routes, k).None? else !Gone(k, routes, e.routes)
  {
    if |us| > 0 {
      assert us[0] in us && forall u :: u in us <==> u == us[0] || u in us[1..];
      var e := ItemStep(self, from, us[0], routes);
      StepShrinks(self, from, us[0], routes, k);
      LoopShrinks(self, from, us[1..], e.routes, k);
    }
  }

  lemma CloseShrinks(self: string, info: PeerInfo, code: int, t: RouteTable, k: RouteKey)
    requires WellFormed(self, t) && code != TRANSPORT_ERROR
    ensures var plan := PlanInternalProtocolClose(info, code, t);
            && ShrinksAt(t.internal, plan.next.internal, plan.changes, k) && (forall c :: c in plan.changes ==> c.x.OfPeer?)
            && (Gone(k, t.internal, plan.next.internal) ==> Via(Find(KeyOf, t.internal, k).value) == info.name)
            && (Find(PeerName, t.peers, info.name).Some? ==> forall r :: r in plan.next.internal ==> Via(r) != info.name)
  {
    var plan := PlanInternalProtocolClose(info, code, t);
    if plan.changed {
      var xs, ys := t.internal, plan.next.internal;
      var theirs := Within(Via, xs, {info.name});
      assert forall r :: r in ys ==> r in xs;
      if Find(KeyOf, ys, k).Some? {
        UniqueMember(KeyOf, xs, Find(KeyOf, ys, k).value, Find(KeyOf, xs, k).value);
      }
      if Gone(k, xs, ys) {
        var r := Find(KeyOf, xs, k).value;
        assert r in theirs;
        RemovedMember(theirs, Removed(OfPeer(r)));
      }
      forall c | c in plan.changes ensures c.Removed? && c.x.OfPeer? && (KeyOf(c.x.ir) == k ==> Gone(k, xs, ys)) {
        RemovedMember(theirs, c);
        if KeyOf(c.x.ir) == k && Find(KeyOf, ys, k).Some? {
          UniqueMember(KeyOf, xs, Find(KeyOf, ys, k).value, c.x.ir);
        }
      }
    }
  }

  lemma RemovedMember(rs: seq<InternalRoute>, c: RouteChange)
    ensures c in RemovedRoutes(rs) <==> c.Removed? && c.x.OfPeer? && c.x.ir in rs
  {
    if c in RemovedRoutes(rs) {
      var i :| 0 <= i < |RemovedRoutes(rs)| && RemovedRoutes(rs)[i] == c;
      assert rs[i] in rs;
    }
    if c.Removed? && c.x.OfPeer? && c.x.ir in rs {
      var i :| 0 <= i < |rs| && rs[i] == c.x.ir;
      assert RemovedRoutes(rs)[i] == c;
    }
  }

  lemma DeleteShrinks(name: string, t: RouteTable, k: RouteKey)
    ensures var plan := PlanLocalRouteDelete(name, t);
            && plan.next.internal == t.internal && (forall c :: c in plan.changes ==> c.Removed? && c.x.OfLocal? && c.x.ch.name == name)
            && (Find(ChannelName, t.local, name).Some? ==> |plan.changes| == 1) && Find(ChannelName, plan.next.local, name).None?
  {
    FindWithout(ChannelName, t.local, {name}, name);
  }

  /** What a withdrawing action does under `k`. */
  lemma PlanShrinks(self: string, a: Action, t: RouteTable, clock: int, k: RouteKey)
    requires WellFormed(self, t) && Withdraws(a)
    ensures var plan := Planned(self, a, t, clock);
            && ShrinksAt(t.internal, plan.next.internal, plan.changes, k)
            && (forall c :: c in plan.changes && c.x.OfLocal? ==> a == LocalRouteDelete(c.x.ch.name))
            && (a.InternalProtocolUpdate? && (exists u :: u in a.items && ItemKey(u) == k) ==> Find(KeyOf, plan.next.internal, k).None?)
            && (Gone(k, t.internal, plan.next.internal) ==>
                  || (HardClose(a) && Via(Find(KeyOf, t.internal, k).value) == a.info.name)
                  || (a.InternalProtocolUpdate? && exists u :: u in a.items && ItemKey(u) == k))
  {
    match a
    case InternalProtocolUpdate(info, us) =>
      LoopShrinks(self, info, us, t.internal, k);
      UpdatedRoutesAre(self, info, us, t, clock);
    case InternalProtocolClose(info, code) => CloseShrinks(self, info, code, t, k);
    case LocalRouteDelete(name) => DeleteShrinks(name, t, k);
  }

  /** No session comes up, and one goes down only when it is closed. */
  lemma PlanCloses(self: string, a: Action, t: RouteTable, clock: int)
    requires WellFormed(self, t) && Withdraws(a)
    ensures ConnectedNames(Planned(self, a, t, clock).next) == ConnectedNames(t) - if HardClose(a) then {a.info.name} else {}
  {
    match a
    case InternalProtocolUpdate(info, us) => UpdateKeepsSessions(self, info, us, t, clock);
    case InternalProtocolClose(info, code) => CloseDisconnects(info, code, t);
    case LocalRouteDelete(name) =>
  }

  lemma CloseDisconnects(info: PeerInfo, code: int, t: RouteTable)
    requires Unique(PeerName, t.peers)
    ensures ConnectedNames(PlanInternalProtocolClose(info, code, t).next) == ConnectedNames(t) - {info.name}
  {
    var ps, qs := t.peers, PlanInternalProtocolClose(info, code, t).next.peers;
    var i := IndexOf(PeerName, ps, info.name);
    if i >= 0 {
      forall x | x in ConnectedNames(t) && x != info.name ensures x in ConnectedNames(PlanInternalProtocolClose(info, code, t).next) {
        var p :| p in ps && p.status == Connected && PeerName(p) == x;
        var j :| 0 <= j < |ps| && ps[j] == p;
        assert qs[j] in qs && qs[j] == p;
      }
      forall q | q in qs && q.status == Connected ensures PeerName(q) in ConnectedNames(t) && PeerName(q) != info.name {
        var j :| 0 <= j < |qs| && qs[j] == q;
        assert j != i && ps[j] in ps;
      }
    }
  }

  // -------------------------------------------------------------------------
  // One dispatch
  // -------------------------------------------------------------------------

  /** The path `v` holds for `k`. */
  function PathAt(net: Net, v: string, k: RouteKey): Option<seq<string>>
    requires v in net.nodes
  {
    match HeldAt(net, v, k) case Some(r) => Some(r.nodePath) case None => None
  }

  /** A withdrawal of `k` is on its way from `u` to `v`. */
  ghost predicate Recalled(net: Net, u: string, v: string, k: RouteKey) {
    exists m, x :: m in net.flight && m.src == u && m.dst == v && x in m.items && x.verb.Remove? && ItemKey(x) == k
  }

  /** A node in good order takes a withdrawing action. */
  ghost predicate Ready(net: Net, n: string, a: Action) {
    Plain(net) && n in net.nodes && GoodTable(n, net.nodes[n].table) && WellFormed(n, net.nodes[n].table) && Withdraws(a)
  }

  predicate Loses(net: Net, net': Net, n: string, k: RouteKey)
    requires n in net.nodes && n in net'.nodes
  {
    PathAt(net, n, k).Some? && PathAt(net', n, k).None?
  }

  /** Dispatch and plan agree on what is held under `k`. */
  lemma CommitsPlan(net: Net, n: string, a: Action, clock: int, up: set<string>, k: RouteKey)
    requires Ready(net, n, a)
    ensures var planned := Find(KeyOf, Planned(n, a, net.nodes[n].table, clock).next.internal, k);
            PathAt(DispatchAt(net, n, a, clock, up), n, k) == match planned case Some(r) => Some(r.nodePath) case None => None
  {
    var cfg, s := net.cfgs[n], net.nodes[n];
    TableAfter(cfg, s, a, clock, up);
    HeldUpToPorts(Dispatched(cfg, s, a, clock, up).state.table.internal, Planned(n, a, s.table, clock).next.internal, k);
  }

  /** What a withdrawing dispatch leaves of the tables. */
  lemma NodeShrinks(net: Net, n: string, a: Action, clock: int, up: set<string>, k: RouteKey)
    requires Ready(net, n, a)
    ensures var net' := DispatchAt(net, n, a, clock, up);
            && (PathAt(net', n, k).Some? ==> PathAt(net', n, k) == PathAt(net, n, k))
            && (a.InternalProtocolUpdate? && (exists u :: u in a.items && ItemKey(u) == k) ==> PathAt(net', n, k).None?)
            && (Loses(net, net', n, k) ==>
                  || (HardClose(a) && Via(HeldAt(net, n, k).value) == a.info.name)
                  || (a.InternalProtocolUpdate? && exists u :: u in a.items && ItemKey(u) == k))
  {
    CommitsPlan(net, n, a, clock, up, k);
    PlanShrinks(n, a, net.nodes[n].table, clock, k);
  }

  lemma NodeCloses(net: Net, n: string, a: Action, clock: int, up: set<string>)
    requires Ready(net, n, a)
    ensures var net' := DispatchAt(net, n, a, clock, up);
            && WellFormed(n, net'.nodes[n].table)
            && ConnectedNames(net'.nodes[n].table) == ConnectedNames(net.nodes[n].table) - if HardClose(a) then {a.info.name} else {}
  {
    var cfg, s := net.cfgs[n], net.nodes[n];
    TableAfter(cfg, s, a, clock, up);
    DispatchKeepsWellFormed(cfg, s, a, clock, up);
    PlanCloses(n, a, s.table, clock);
  }

  lemma NodeOriginates(net: Net, n: string, a: Action, clock: int, up: set<string>, name: string)
    requires Ready(net, n, a)
    ensures Originates(DispatchAt(net, n, a, clock, up), n, name) <==> Originates(net, n, name) && a != LocalRouteDelete(name)
  {
    var cfg, s := net.cfgs[n], net.nodes[n];
    TableAfter(cfg, s, a, clock, up);
    NamesUpToPorts(Dispatched(cfg, s, a, clock, up).state.table.local, Planned(n, a, s.table, clock).next.local, name);
    PlanOriginates(n, a, s.table, clock, name);
  }

  lemma LocalStays(self: string, a: Action, t: RouteTable, clock: int)
    requires Withdraws(a) && !a.LocalRouteDelete?
    ensures Planned(self, a, t, clock).next.local == t.local
  {
    if a.InternalProtocolUpdate? {
      UpdatedRoutesAre(self, a.info, a.items, t, clock);
    }
  }

  lemma PlanOriginates(self: string, a: Action, t: RouteTable, clock: int, name: string)
    requires Withdraws(a)
    ensures Find(ChannelName, Planned(self, a, t, clock).next.local, name).Some? <==> Find(ChannelName, t.local, name).Some? && a != LocalRouteDelete(name)
  {
    if a.LocalRouteDelete? {
      FindWithout(ChannelName, t.local, {a.name}, name);
      assert Planned(self, a, t, clock) == PlanLocalRouteDelete(a.name, t);
    } else {
      LocalStays(self, a, t, clock);
    }
  }

  /** A change a withdrawing dispatch reports reaches every connected peer it may be told to. */
  lemma ChangeRecalled(net: Net, n: string, a: Action, clock: int, up: set<string>, c: RouteChange, w: string)
    requires Ready(net, n, a) && c in Planned(n, a, net.nodes[n].table, clock).changes && c.Removed?
    requires w in ConnectedNames(Planned(n, a, net.nodes[n].table, clock).next) && w in up
    requires c.x.OfPeer? ==> Via(c.x.ir) != w && w !in c.x.ir.nodePath
    ensures Recalled(DispatchAt(net, n, a, clock, up), n, w, match c.x case OfPeer(r) => KeyOf(r) case OfLocal(ch) => RouteKey(ch.name, n))
  {
    var cfg, s := net.cfgs[n], net.nodes[n];
    var p :| p in Planned(n, a, s.table, clock).next.peers && p.status == Connected && PeerName(p) == w;
    UnchangedPlan(n, a, s.table, clock);
    ChangeTold(cfg, s, a, clock, up, c, p);
    var x, u :| x in Dispatched(cfg, s, a, clock, up).sends && x.SendUpdate? && x.to == w && u in x.items && TellsOf(n, w, c, u);
    assert SendUpdate(x.to, x.items) in Dispatched(cfg, s, a, clock, up).sends;
    assert Msg(n, w, x.items) in Launched(n, Dispatched(cfg, s, a, clock, up).sends);
  }

  /** A node that loses a route tells every peer still connected, unless the route came from it or passed it. */
  lemma LossRecalled(net: Net, n: string, a: Action, clock: int, up: set<string>, k: RouteKey, w: string)
    requires Ready(net, n, a) && Loses(net, DispatchAt(net, n, a, clock, up), n, k)
    requires w in ConnectedNames(DispatchAt(net, n, a, clock, up).nodes[n].table) && w in up && w !in PathAt(net, n, k).value
    ensures Recalled(DispatchAt(net, n, a, clock, up), n, w, k)
  {
    var cfg, s := net.cfgs[n], net.nodes[n];
    var r := HeldAt(net, n, k).value;
    TableAfter(cfg, s, a, clock, up);
    CommitsPlan(net, n, a, clock, up, k);
    PlanShrinks(n, a, s.table, clock, k);
    assert GoodRoute(n, r) && r.nodePath[0] in r.nodePath;
    ChangeRecalled(net, n, a, clock, up, Removed(OfPeer(r)), w);
  }

  lemma DeleteRecalled(net: Net, n: string, name: string, clock: int, up: set<string>, w: string)
    requires Ready(net, n, LocalRouteDelete(name)) && Originates(net, n, name)
    requires w in ConnectedNames(DispatchAt(net, n, LocalRouteDelete(name), clock, up).nodes[n].table) && w in up
    ensures Recalled(DispatchAt(net, n, LocalRouteDelete(name), clock, up), n, w, RouteKey(name, n))
  {
    var cfg, s, a := net.cfgs[n], net.nodes[n], LocalRouteDelete(name);
    TableAfter(cfg, s, a, clock, up);
    ChangeRecalled(net, n, a, clock, up, Removed(OfLocal(Find(ChannelName, s.table.local, name).value)), w);
  }

  lemma NewlySent(net: Net, n: string, a: Action, clock: int, up: set<string>, m: Msg)
    requires Ready(net, n, a) && m in DispatchAt(net, n, a, clock, up).flight && m !in net.flight
    ensures m.dst in ConnectedNames(DispatchAt(net, n, a, clock, up).nodes[n].table) && forall x :: x in m.items ==> x.verb.Remove?
  {
    var cfg, s := net.cfgs[n], net.nodes[n];
    assert m in Launched(n, Dispatched(cfg, s, a, clock, up).sends);
    UpdatesSent(cfg, s, a, clock, up, SendUpdate(m.dst, m.items));
    TableAfter(cfg, s, a, clock, up);
    StampingKeepsRoutes(Planned(n, a, s.table, clock), s.pool);
    forall x | x in m.items ensures x.verb.Remove? {
      NewlyRecalled(net, n, a, clock, up, m, x);
    }
  }

  /** Everything new in flight withdraws, to a connected peer, a key that has just gone. */
  lemma NewlyRecalled(net: Net, n: string, a: Action, clock: int, up: set<string>, m: Msg, x: UpdateItem)
    requires Ready(net, n, a) && m in DispatchAt(net, n, a, clock, up).flight && m !in net.flight && x in m.items
    ensures var net' := DispatchAt(net, n, a, clock, up);
            && m.src == n && m.dst in ConnectedNames(net'.nodes[n].table) && x.verb.Remove?
            && (Loses(net, net', n, ItemKey(x)) || (n == ItemKey(x).origin && a == LocalRouteDelete(ItemKey(x).name)))
  {
    var cfg, s := net.cfgs[n], net.nodes[n];
    var plan, k := Planned(n, a, s.table, clock), ItemKey(x);
    assert m in Launched(n, Dispatched(cfg, s, a, clock, up).sends);
    SentTells(cfg, s, a, clock, up, SendUpdate(m.dst, m.items), x);
    TableAfter(cfg, s, a, clock, up);
    CommitsPlan(net, n, a, clock, up, k);
    PlanShrinks(n, a, s.table, clock, k);
    var c :| c in plan.changes && TellsOf(n, m.dst, c, x);
  }

  // -------------------------------------------------------------------------
  // Runs
  // -------------------------------------------------------------------------

  /** `rest` has the same nodes and no other sessions than `links`. */
  ghost predicate Sub(rest: Links, links: Links) {
    rest.Keys == links.Keys && forall u :: u in links ==> rest[u] <= links[u]
  }

  /** Sessions are known at both ends. */
  ghost predicate Mutual(links: Links) {
    forall u, v :: u in links && v in links[u] ==> v in links && u in links[v]
  }

  /** Any channel is deleted, any session outside `rest` is closed for good at either end, and messages are delivered;
      the transport reaches every peer of `rest`. */
  predicate Withdrawing(rest: Links, e: Event) {
    match e
    case Local(n, a, _, up) =>
      n in rest && rest[n] <= up && (a.LocalRouteDelete? || (HardClose(a) && a.info.name !in rest[n]))
    case Deliver(m, _, _, up) => m.dst in rest && rest[m.dst] <= up
    case Lose(_) => false
  }

  ghost predicate WithdrawalRun(rest: Links, net: Net, es: seq<Event>): (possible: bool)
    requires Configured(net)
    ensures possible ==> CanRun(net, es)
    decreases es
  {
    |es| > 0 ==> Enabled(net, es[0]) && Withdrawing(rest, es[0]) && WithdrawalRun(rest, Exec(net, es[0]), es[1..])
  }

  /** Every node has its peers of `rest` connected, and none but those of `links`. */
  ghost predicate SessionsBetween(rest: Links, links: Links, net: Net) {
    && net.nodes.Keys == links.Keys == rest.Keys
    && forall v :: v in links ==> rest[v] <= ConnectedNames(net.nodes[v].table) <= links[v]
  }

  /** Nothing but withdrawals is in flight. */
  ghost predicate OnlyRecalls(net: Net) {
    forall m, x :: m in net.flight && x in m.items ==> x.verb.Remove?
  }

  ghost predicate Orderly(rest: Links, links: Links, net: Net) {
    && Sub(rest, links)
    && Plain(net) && PathVectors(net) && SessionsBetween(rest, links, net) && OnlyRecalls(net)
    && forall v :: v in links ==> WellFormed(v, net.nodes[v].table)
  }

  ghost predicate Going(rest: Links, links: Links, net: Net, e: Event) {
    Orderly(rest, links, net) && Enabled(net, e) && Withdrawing(rest, e)
  }

  /** The node an event concerns, what it does there and what is in flight besides. */
  function Where(e: Event): string {
    match e case Local(n, _, _, _) => n case Deliver(m, _, _, _) => m.dst case Lose(m) => m.dst
  }

  function What(e: Event): Action
    requires !e.Lose?
  {
    match e case Local(_, a, _, _) => a case Deliver(m, info, _, _) => InternalProtocolUpdate(info, m.items)
  }

  function Before(net: Net, e: Event): Net {
    if e.Deliver? then net.(flight := net.flight - multiset{e.msg}) else net
  }

  /** An event of a withdrawal run is a withdrawing dispatch of its node. */
  lemma EventIs(rest: Links, links: Links, net: Net, e: Event)
    requires Going(rest, links, net, e)
    ensures Ready(Before(net, e), Where(e), What(e)) && Exec(net, e) == DispatchAt(Before(net, e), Where(e), What(e), e.clock, e.up)
  {
    if e.Deliver? {
      forall u | u in e.msg.items && |u.nodePath| > 0 ensures u.nodePath[0] == e.msg.src {
        assert GoodItem(e.msg.src, e.msg.dst, u);
      }
    }
  }

  lemma RecallsKept(rest: Links, links: Links, net: Net, e: Event)
    requires Going(rest, links, net, e)
    ensures OnlyRecalls(Exec(net, e))
  {
    EventIs(rest, links, net, e);
    forall m, x | m in Exec(net, e).flight && x in m.items ensures x.verb.Remove? {
      if m !in net.flight {
        NewlySent(Before(net, e), Where(e), What(e), e.clock, e.up, m);
      }
    }
  }

  lemma OrderKept(rest: Links, links: Links, net: Net, e: Event)
    requires Going(rest, links, net, e)
    ensures Orderly(rest, links, Exec(net, e))
  {
    EventIs(rest, links, net, e);
    RecallsKept(rest, links, net, e);
    StepKeepsPathVectors(net, e);
    NodeCloses(Before(net, e), Where(e), What(e), e.clock, e.up);
  }

  /** What a node still holds it held from the start, from a peer that is still connected. */
  ghost predicate Kept(start: Net, net: Net, v: string, k: RouteKey)
    requires v in start.nodes && v in net.nodes
  {
    PathAt(net, v, k).Some? ==>
      && PathAt(net, v, k) == PathAt(start, v, k)
      && |PathAt(net, v, k).value| > 0 && PathAt(net, v, k).value[0] in ConnectedNames(net.nodes[v].table)
  }

  /** What a node holds over a session of `rest`, the peer still vouches for or is taking back. */
  ghost predicate Vouched(rest: Links, net: Net, v: string, k: RouteKey)
    requires v in net.nodes && net.nodes.Keys == rest.Keys
  {
    PathAt(net, v, k).Some? && |PathAt(net, v, k).value| > 0 ==>
      var u := PathAt(net, v, k).value[0];
      u in rest && v in rest[u] ==> Hops(net, u, k).Some? || Recalled(net, u, v, k)
  }

  ghost predicate Ebb(rest: Links, links: Links, start: Net, net: Net, k: RouteKey) {
    && Orderly(rest, links, net) && start.nodes.Keys == links.Keys
    && forall v :: v in links ==> Kept(start, net, v, k) && Vouched(rest, net, v, k)
  }

  /** The paths at the start lead hop by hop nearer to the origin, and no node's path passes a peer that has its own path
      from it. */
  ghost predicate Grounded(links: Links, net: Net, k: RouteKey) {
    net.nodes.Keys == links.Keys && forall v :: v in links ==> GroundedAt(links, net, v, k)
  }

  ghost predicate GroundedAt(links: Links, net: Net, v: string, k: RouteKey)
    requires net.nodes.Keys == links.Keys && v in links
  {
    PathAt(net, v, k).Some? ==>
      var path := PathAt(net, v, k).value;
      && v != k.origin && |path| > 0 && path[0] in links && v in links[path[0]]
      && Hops(net, path[0], k).Some? && Hops(net, path[0], k).value < |path|
      && (path[0] != k.origin ==> v !in PathAt(net, path[0], k).value)
  }

  lemma FloodIsGrounded(links: Links, net: Net, v: string, k: RouteKey)
    requires FloodInv(links, net) && v in links
    ensures GroundedAt(links, net, v, k)
  {
    if HeldAt(net, v, k).Some? {
      var r := HeldAt(net, v, k).value;
      HeldIsBacked(links, net, v, k);
      var walk := [v] + r.nodePath;
      assert walk[0] in links[walk[0 + 1]] && walk[1] == r.nodePath[0];
      OriginHoldsNone(links, net, k);
      if r.nodePath[0] != k.origin {
        assert Holds(net, r.nodePath[0], k, |r.nodePath| - 1);
        HeldIsBacked(links, net, r.nodePath[0], k);
        NotOnTheWay(links, net, v, HeldAt(net, r.nodePath[0], k).value.nodePath, r.nodePath[0], k);
      }
    }
  }

  lemma HeldIsBacked(links: Links, net: Net, u: string, k: RouteKey)
    requires FloodInv(links, net) && u in links && HeldAt(net, u, k).Some?
    ensures Backed(links, net, u, k, HeldAt(net, u, k).value.nodePath)
  {
    assert NodeFlood(links, net, u);
  }

  lemma NotOnTheWay(links: Links, net: Net, v: string, path: seq<string>, u: string, k: RouteKey)
    requires v in net.nodes && v != k.origin && Backed(links, net, u, k, path)
    requires HeldAt(net, v, k).Some? && |path| < |HeldAt(net, v, k).value.nodePath|
    ensures v !in path
  {
    forall i | 0 <= i < |path| ensures path[i] != v {
      if i < |path| - 1 {
        assert Holds(net, path[i], k, |path| - 1 - i);
      }
    }
  }

  lemma OthersSame(rest: Links, links: Links, net: Net, e: Event)
    requires Going(rest, links, net, e)
    ensures forall v :: v in links && v != Where(e) ==> Exec(net, e).nodes[v] == net.nodes[v]
    ensures forall m :: m in net.flight && m !in Exec(net, e).flight ==> e == Deliver(m, e.info, e.clock, e.up)
  {
    EventIs(rest, links, net, e);
  }

  /** A route held via a peer whose session is closed for good is gone. */
  lemma KeptStep(rest: Links, links: Links, start: Net, net: Net, e: Event, v: string, k: RouteKey)
    requires Going(rest, links, net, e) && v in links && v in start.nodes && Kept(start, net, v, k)
    ensures v in Exec(net, e).nodes && Kept(start, Exec(net, e), v, k)
  {
    EventIs(rest, links, net, e);
    OthersSame(rest, links, net, e);
    if v == Where(e) {
      KeptByDispatch(start, Before(net, e), v, What(e), e.clock, e.up, k);
    }
  }

  lemma KeptByDispatch(start: Net, net: Net, n: string, a: Action, clock: int, up: set<string>, k: RouteKey)
    requires Ready(net, n, a) && n in start.nodes && Kept(start, net, n, k)
    ensures Kept(start, DispatchAt(net, n, a, clock, up), n, k)
  {
    NodeShrinks(net, n, a, clock, up, k);
    NodeCloses(net, n, a, clock, up);
    if PathAt(DispatchAt(net, n, a, clock, up), n, k).Some? && HardClose(a) && a.info.name in ConnectedNames(net.nodes[n].table) {
      ClosedForGood(net, n, a, clock, up, k);
    }
  }

  lemma CloseLeavesNone(self: string, a: Action, t: RouteTable, clock: int, k: RouteKey)
    requires WellFormed(self, t) && HardClose(a) && a.info.name in ConnectedNames(t)
    requires Find(KeyOf, Planned(self, a, t, clock).next.internal, k).Some?
    ensures Find(KeyOf, t.internal, k).Some? && Via(Find(KeyOf, t.internal, k).value) != a.info.name
  {
    CloseShrinks(self, a.info, a.code, t, k);
  }

  lemma ClosedForGood(net: Net, n: string, a: Action, clock: int, up: set<string>, k: RouteKey)
    requires Ready(net, n, a) && HardClose(a) && a.info.name in ConnectedNames(net.nodes[n].table)
    requires PathAt(DispatchAt(net, n, a, clock, up), n, k).Some?
    ensures PathAt(net, n, k).Some? && |PathAt(net, n, k).value| > 0 && PathAt(net, n, k).value[0] != a.info.name
  {
    var s := net.nodes[n];
    CommitsPlan(net, n, a, clock, up, k);
    CloseLeavesNone(n, a, s.table, clock, k);
    assert GoodRoute(n, HeldAt(net, n, k).value);
  }

  /** A node stops vouching only together with a withdrawal to each peer still connected. */
  lemma RecallsDownstream(net: Net, n: string, a: Action, clock: int, up: set<string>, v: string, k: RouteKey)
    requires Ready(net, n, a) && Hops(net, n, k).Some? && Hops(DispatchAt(net, n, a, clock, up), n, k).None?
    requires v in ConnectedNames(DispatchAt(net, n, a, clock, up).nodes[n].table) && v in up
    requires n != k.origin ==> v !in PathAt(net, n, k).value
    ensures Recalled(DispatchAt(net, n, a, clock, up), n, v, k)
  {
    if n == k.origin {
      NodeOriginates(net, n, a, clock, up, k.name);
      DeleteRecalled(net, n, k.name, clock, up, v);
    } else {
      LossRecalled(net, n, a, clock, up, k, v);
    }
  }

  lemma StopsVouching(rest: Links, links: Links, start: Net, net: Net, e: Event, v: string, k: RouteKey)
    requires Going(rest, links, net, e) && start.nodes.Keys == links.Keys && v in links
    requires GroundedAt(links, start, v, k) && PathAt(start, v, k).Some? && PathAt(start, v, k).value[0] == Where(e) && v in rest[Where(e)]
    requires Kept(start, net, Where(e), k) && Where(e) in Exec(net, e).nodes && v in ConnectedNames(Exec(net, e).nodes[Where(e)].table)
    requires Hops(net, Where(e), k).Some? && Hops(Exec(net, e), Where(e), k).None?
    ensures Recalled(Exec(net, e), Where(e), v, k)
  {
    EventIs(rest, links, net, e);
    RecallsDownstream(Before(net, e), Where(e), What(e), e.clock, e.up, v, k);
  }

  lemma RecallStays(rest: Links, links: Links, net: Net, e: Event, u: string, v: string, k: RouteKey)
    requires Going(rest, links, net, e) && v in links
    requires Recalled(net, u, v, k) && PathAt(Exec(net, e), v, k).Some?
    ensures Recalled(Exec(net, e), u, v, k)
  {
    EventIs(rest, links, net, e);
    OthersSame(rest, links, net, e);
    var m, x :| m in net.flight && m.src == u && m.dst == v && x in m.items && x.verb.Remove? && ItemKey(x) == k;
    if m !in Exec(net, e).flight {
      NodeShrinks(Before(net, e), v, What(e), e.clock, e.up, k);
    }
  }

  /** Over one session: a peer that vouched goes on vouching, or takes back what it vouched for. */
  lemma VouchStep(rest: Links, links: Links, start: Net, net: Net, e: Event, u: string, v: string, k: RouteKey)
    requires Going(rest, links, net, e) && start.nodes.Keys == links.Keys && u in links && v in links && v in rest[u]
    requires GroundedAt(links, start, v, k) && PathAt(start, v, k).Some? && PathAt(start, v, k).value[0] == u && Kept(start, net, u, k)
    requires Hops(net, u, k).Some? || Recalled(net, u, v, k)
    requires u in Exec(net, e).nodes && v in ConnectedNames(Exec(net, e).nodes[u].table) && PathAt(Exec(net, e), v, k).Some?
    ensures Hops(Exec(net, e), u, k).Some? || Recalled(Exec(net, e), u, v, k)
  {
    OthersSame(rest, links, net, e);
    if Recalled(net, u, v, k) {
      RecallStays(rest, links, net, e, u, v, k);
    } else if Hops(Exec(net, e), u, k).None? {
      StopsVouching(rest, links, start, net, e, v, k);
    }
  }

  lemma VouchedStep(rest: Links, links: Links, start: Net, net: Net, e: Event, v: string, k: RouteKey)
    requires Ebb(rest, links, start, net, k) && Grounded(links, start, k) && Going(rest, links, net, e) && v in links
    requires Orderly(rest, links, Exec(net, e)) && Kept(start, Exec(net, e), v, k)
    ensures Vouched(rest, Exec(net, e), v, k)
  {
    var net' := Exec(net, e);
    assert GroundedAt(links, start, v, k);
    if PathAt(net', v, k).Some? {
      StillHeld(rest, links, net, e, v, k);
      var u := PathAt(net', v, k).value[0];
      if v in rest[u] {
        assert Kept(start, net, v, k) && Vouched(rest, net, v, k) && Kept(start, net, u, k);
        VouchStep(rest, links, start, net, e, u, v, k);
      }
    }
  }

  lemma StillHeld(rest: Links, links: Links, net: Net, e: Event, v: string, k: RouteKey)
    requires Going(rest, links, net, e) && v in links
    requires PathAt(Exec(net, e), v, k).Some?
    ensures PathAt(net, v, k) == PathAt(Exec(net, e), v, k)
  {
    EventIs(rest, links, net, e);
    OthersSame(rest, links, net, e);
    if v == Where(e) {
      NodeShrinks(Before(net, e), v, What(e), e.clock, e.up, k);
    }
  }

  lemma EbbStep(rest: Links, links: Links, start: Net, net: Net, e: Event, k: RouteKey)
    requires Ebb(rest, links, start, net, k) && Grounded(links, start, k) && Going(rest, links, net, e)
    ensures Ebb(rest, links, start, Exec(net, e), k)
  {
    OrderKept(rest, links, net, e);
    forall v | v in links ensures Kept(start, Exec(net, e), v, k) && Vouched(rest, Exec(net, e), v, k) {
      assert Kept(start, net, v, k);
      KeptStep(rest, links, start, net, e, v, k);
      VouchedStep(rest, links, start, net, e, v, k);
    }
  }

  lemma {:induction false} EbbRun(rest: Links, links: Links, start: Net, net: Net, es: seq<Event>, k: RouteKey)
    requires Ebb(rest, links, start, net, k) && Grounded(links, start, k) && WithdrawalRun(rest, net, es)
    ensures Ebb(rest, links, start, RunNet(net, es), k)
    decreases es
  {
    if |es| > 0 {
      EbbStep(rest, links, start, net, es[0], k);
      EbbRun(rest, links, start, Exec(net, es[0]), es[1..], k);
    }
  }

  /** A converged network: an announcement run has come to rest. */
  ghost predicate AtRest(links: Links, net: Net) {
    FloodInv(links, net) && net.flight == multiset{} && Mutual(links)
  }

  lemma RestIsEbb(rest: Links, links: Links, net: Net, k: RouteKey)
    requires AtRest(links, net) && Sub(rest, links)
    ensures Grounded(links, net, k) && Ebb(rest, links, net, net, k)
  {
    forall v | v in links ensures GroundedAt(links, net, v, k) {
      FloodIsGrounded(links, net, v, k);
    }
    forall v | v in links ensures Kept(net, net, v, k) && Vouched(rest, net, v, k) && WellFormed(v, net.nodes[v].table) {
      assert GroundedAt(links, net, v, k) && NodeFlood(links, net, v);
    }
  }
}
