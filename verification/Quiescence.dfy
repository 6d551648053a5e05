/** Messages run out: a measure drops at every delivery and every loss, whatever is in flight and whatever is held. */
module Quiescence {
  import opened KeyedLists
  import opened RouteTypes
  import opened Rib
  import opened PortAllocator
  import opened BusSpec
  import opened PortErasure
  import opened DispatchFacts
  import opened Network

  // -------------------------------------------------------------------------
  // What a message can still cause
  // -------------------------------------------------------------------------

  /** `w`, `k` times. */
  function Times(k: nat, w: nat): nat { if k == 0 then 0 else w + Times(k - 1, w) }

  lemma {:induction false} TimesSum(k: nat, v: nat, w: nat)
    ensures Times(k, v + w) == Times(k, v) + Times(k, w)
  {
    if k > 0 {
      TimesSum(k - 1, v, w);
    }
  }

  lemma {:induction false} TimesGrows(j: nat, k: nat, w: nat)
    requires j <= k
    ensures Times(j, w) <= Times(k, w)
  {
    if j < k {
      TimesGrows(j, k - 1, w);
    }
  }

  lemma {:induction false} TimesOne(k: nat)
    ensures Times(k, 0) == 0 && Times(k, 2) == 2 * k
  {
    if k > 0 {
      TimesOne(k - 1);
    }
  }

  /** The worth of an advertisement that can travel `left` more hops, at nodes of at most `d` peers: the route it may leave
      behind, and one message to each peer. */
  function AddWorth(left: nat, d: nat): nat {
    if left == 0 then 0 else 2 * d + Times(d, 1 + AddWorth(left - 1, d))
  }

  function Left(n: nat, hops: nat): nat { if hops < n then n - hops else 0 }

  function ItemWorth(u: UpdateItem, n: nat, d: nat): nat {
    if u.verb.Remove? then 1 else AddWorth(Left(n, |u.nodePath|), d)
  }

  function ItemsWorth(us: seq<UpdateItem>, n: nat, d: nat): nat {
    if |us| == 0 then 0 else ItemWorth(us[0], n, d) + ItemsWorth(us[1..], n, d)
  }

  /** A message counts for itself and for its items. */
  function MsgWorth(items: seq<UpdateItem>, n: nat, d: nat): nat { 1 + ItemsWorth(items, n, d) }

  function PathOf(x: Route): seq<string> {
    match x case OfLocal(_) => [] case OfPeer(r) => r.nodePath
  }

  /** The worth of a message that tells of `c` alone. */
  function ChangeWorth(c: RouteChange, n: nat, d: nat): nat {
    1 + if c.Removed? then 1 else AddWorth(Left(n, |PathOf(c.x)| + 1), d)
  }

  function ChangesWorth(cs: seq<RouteChange>, n: nat, d: nat): nat {
    if |cs| == 0 then 0 else ChangeWorth(cs[0], n, d) + ChangesWorth(cs[1..], n, d)
  }

  function SendsWorth(sends: seq<Send>, n: nat, d: nat): nat {
    if |sends| == 0 then 0
    else (if sends[0].SendUpdate? then MsgWorth(sends[0].items, n, d) else 0) + SendsWorth(sends[1..], n, d)
  }

  /** A stored route may have to be withdrawn from every peer. */
  function TableWorth(rs: seq<InternalRoute>, d: nat): nat { Times(|rs|, 2 * d) }

  // -------------------------------------------------------------------------
  // One dispatch of an update
  // -------------------------------------------------------------------------

  lemma {:induction false} ChangesWorthAppend(cs: seq<RouteChange>, ds: seq<RouteChange>, n: nat, d: nat)
    ensures ChangesWorth(cs + ds, n, d) == ChangesWorth(cs, n, d) + ChangesWorth(ds, n, d)
  {
    if |cs| == 0 {
      assert cs + ds == ds;
    } else {
      assert (cs + ds)[1..] == cs[1..] + ds;
      ChangesWorthAppend(cs[1..], ds, n, d);
    }
  }

  lemma StepWorth(self: string, from: PeerInfo, u: UpdateItem, routes: seq<InternalRoute>, n: nat, d: nat)
    requires u.verb.Add? ==> |u.nodePath| < n
    ensures var e := ItemStep(self, from, u, routes);
            TableWorth(e.routes, d) + Times(d, ChangesWorth(e.changes, n, d)) <= TableWorth(routes, d) + ItemWorth(u, n, d)
  {
    var e := ItemStep(self, from, u, routes);
    TimesOne(d);
    if |e.changes| == 0 {
      assert e.routes == routes;
    } else {
      var c := e.changes[0];
      assert e.changes == [c] && e.changes[1..] == [];
      assert ChangesWorth(e.changes, n, d) == ChangeWorth(c, n, d);
      if u.verb.Remove? {
        assert |e.routes| <= |routes| - 1;
        TimesGrows(|e.routes|, |routes| - 1, 2 * d);
      } else {
        assert PathOf(c.x) == u.nodePath && Left(n, |u.nodePath| + 1) == Left(n, |u.nodePath|) - 1;
        assert |e.routes| <= |routes| + 1;
        TimesGrows(|e.routes|, |routes| + 1, 2 * d);
      }
    }
  }

  lemma BothWorth(cs: seq<RouteChange>, ds: seq<RouteChange>, n: nat, d: nat)
    ensures Times(d, ChangesWorth(cs + ds, n, d)) == Times(d, ChangesWorth(cs, n, d)) + Times(d, ChangesWorth(ds, n, d))
  {
    ChangesWorthAppend(cs, ds, n, d);
    TimesSum(d, ChangesWorth(cs, n, d), ChangesWorth(ds, n, d));
  }

  lemma {:induction false} LoopWorth(self: string, from: PeerInfo, us: seq<UpdateItem>, routes: seq<InternalRoute>, n: nat, d: nat)
    requires forall u :: u in us && u.verb.Add? ==> |u.nodePath| < n
    ensures var e := ItemLoop(self, from, us, routes);
            TableWorth(e.routes, d) + Times(d, ChangesWorth(e.changes, n, d)) <= TableWorth(routes, d) + ItemsWorth(us, n, d)
  {
    if |us| > 0 {
      assert us[0] in us;
      var e := ItemStep(self, from, us[0], routes);
      var rest := ItemLoop(self, from, us[1..], e.routes);
      StepWorth(self, from, us[0], routes, n, d);
      LoopWorth(self, from, us[1..], e.routes, n, d);
      BothWorth(e.changes, rest.changes, n, d);
    } else {
      TimesOne(d);
    }
  }

  lemma {:induction false} ItemsForWorth(cfg: NodeConfig, p: PeerRecord, cs: seq<RouteChange>, n: nat, d: nat)
    ensures ItemsWorth(ItemsFor(cfg, p, cs), n, d) + |cs| <= ChangesWorth(cs, n, d)
  {
    if |cs| > 0 {
      ItemsForWorth(cfg, p, cs[1..], n, d);
      var first, rest := ItemFor(cfg, p, cs[0]), ItemsFor(cfg, p, cs[1..]);
      if |first| > 0 {
        assert first == [first[0]] && (first + rest)[1..] == rest;
        assert |first[0].nodePath| == |PathOf(cs[0].x)| + 1;
      } else {
        assert first + rest == rest;
      }
    }
  }

  lemma {:induction false} SendsWorthAppend(a: seq<Send>, b: seq<Send>, n: nat, d: nat)
    ensures SendsWorth(a + b, n, d) == SendsWorth(a, n, d) + SendsWorth(b, n, d)
  {
    if |a| == 0 {
      assert a + b == b;
    } else {
      assert (a + b)[1..] == a[1..] + b;
      SendsWorthAppend(a[1..], b, n, d);
    }
  }

  /** A report costs each peer at most one message. */
  lemma {:induction false} FanOutWorth(cfg: NodeConfig, ps: seq<PeerRecord>, cs: seq<RouteChange>, up: set<string>, n: nat, d: nat)
    ensures SendsWorth(FanOut(cfg, ps, cs, up), n, d) <= Times(|ps|, ChangesWorth(cs, n, d))
  {
    if |ps| > 0 {
      var items := ItemsFor(cfg, ps[0], cs);
      var post := Post(up, PeerName(ps[0]), items);
      FanOutWorth(cfg, ps[1..], cs, up, n, d);
      SendsWorthAppend(post, FanOut(cfg, ps[1..], cs, up), n, d);
      ItemsForWorth(cfg, ps[0], cs, n, d);
      assert SendsWorth(post, n, d) <= ChangesWorth(cs, n, d) by {
        if |post| > 0 {
          assert post[1..] == [] && |cs| > 0;
        }
      }
    }
  }

  lemma {:induction false} ChangesWorthUpToPorts(cs: seq<RouteChange>, ds: seq<RouteChange>, n: nat, d: nat)
    requires SameChanges(cs, ds)
    ensures ChangesWorth(cs, n, d) == ChangesWorth(ds, n, d)
  {
    if |cs| > 0 {
      assert SameChange(cs[0], ds[0]);
      if cs[0].x.OfPeer? {
        assert Core(cs[0].x.ir).nodePath == Core(ds[0].x.ir).nodePath;
      }
      assert forall i :: 0 <= i < |cs[1..]| ==> cs[1..][i] == cs[i + 1] && ds[1..][i] == ds[i + 1];
      ChangesWorthUpToPorts(cs[1..], ds[1..], n, d);
    }
  }

  lemma {:induction false} WithinLength(ps: seq<PeerRecord>, st: set<ConnectionStatus>)
    ensures |Within(StatusOf, ps, st)| <= |ps|
  {
    if |ps| > 0 {
      WithinLength(ps[1..], st);
    }
  }

  /** Telling a report to at most `d` peers. */
  lemma ReportWorth(cfg: NodeConfig, t: RouteTable, cs: seq<RouteChange>, up: set<string>, n: nat, d: nat)
    requires |t.peers| <= d
    ensures SendsWorth(FanOut(cfg, ConnectedPeers(t), cs, up), n, d) <= Times(d, ChangesWorth(cs, n, d))
  {
    WithinLength(t.peers, {Connected});
    FanOutWorth(cfg, ConnectedPeers(t), cs, up, n, d);
    TimesGrows(|ConnectedPeers(t)|, d, ChangesWorth(cs, n, d));
  }

  lemma CarriedSendsAre(cfg: NodeConfig, s: BusState, a: Action, plan: PlanResult, up: set<string>)
    requires a.InternalProtocolUpdate?
    ensures var stamped := PlanPorts(plan, s.pool);
            Carried(cfg, s, a, plan, up).sends == if |stamped.changes| == 0 then [] else FanOut(cfg, ConnectedPeers(stamped.next), stamped.changes, up)
  {
    var stamped := PlanPorts(plan, s.pool);
    OnlyDeltas(cfg, a, stamped, up);
    assert Carried(cfg, s, a, plan, up).sends == Notified(cfg, a, stamped, up) + KeepaliveSends(a, stamped.next, s.sent, up);
    assert KeepaliveSends(a, stamped.next, s.sent, up) == [];
  }

  lemma OnlyDeltas(cfg: NodeConfig, a: Action, plan: PlanResult, up: set<string>)
    requires a.InternalProtocolUpdate?
    ensures Notified(cfg, a, plan, up) == if |plan.changes| == 0 then [] else FanOut(cfg, ConnectedPeers(plan.next), plan.changes, up)
  {
    var fan := if |plan.changes| == 0 then [] else FanOut(cfg, ConnectedPeers(plan.next), plan.changes, up);
    assert CloseNotice(a, plan.prev, up) == [] && [] + fan == fan;
  }

  /** A committed update leaves routes and messages worth at most what the plan is worth. */
  lemma CarriedWorth(cfg: NodeConfig, s: BusState, a: Action, plan: PlanResult, up: set<string>, n: nat, d: nat)
    requires a.InternalProtocolUpdate? && |plan.next.peers| <= d
    ensures var o := Carried(cfg, s, a, plan, up);
            |o.state.table.internal| == |plan.next.internal| && SendsWorth(o.sends, n, d) <= Times(d, ChangesWorth(plan.changes, n, d))
  {
    var stamped := PlanPorts(plan, s.pool);
    StampingKeepsRoutes(plan, s.pool);
    ChangesWorthUpToPorts(stamped.changes, plan.changes, n, d);
    CarriedSendsAre(cfg, s, a, plan, up);
    ReportWorth(cfg, stamped.next, stamped.changes, up, n, d);
  }

  lemma {:induction false} WithinWorth(us: seq<UpdateItem>, names: set<string>, n: nat, d: nat)
    ensures ItemsWorth(Within(RouteName, us, names), n, d) <= ItemsWorth(us, n, d)
  {
    if |us| > 0 {
      WithinWorth(us[1..], names, n, d);
      var rest := Within(RouteName, us[1..], names);
      assert ([us[0]] + rest)[1..] == rest;
    }
  }

  lemma PlannedWorth(cfg: NodeConfig, s: BusState, info: PeerInfo, us: seq<UpdateItem>, a: Action, clock: int, up: set<string>, n: nat, d: nat)
    requires (forall u :: u in us && u.verb.Add? ==> |u.nodePath| < n) && |s.table.peers| <= d
    requires a.InternalProtocolUpdate? && PlannedUpdate(cfg.name, info, us, s.table, clock).changed
    ensures var o := Carried(cfg, s, a, PlannedUpdate(cfg.name, info, us, s.table, clock), up);
            TableWorth(o.state.table.internal, d) + SendsWorth(o.sends, n, d) <= TableWorth(s.table.internal, d) + ItemsWorth(us, n, d)
  {
    LoopWorth(cfg.name, info, us, s.table.internal, n, d);
    CarriedWorth(cfg, s, a, PlannedUpdate(cfg.name, info, us, s.table, clock), up, n, d);
  }

  /** The items of an update that pass the policy. */
  lemma Admitted(cfg: NodeConfig, info: PeerInfo, us: seq<UpdateItem>, t: RouteTable) returns (kept: seq<UpdateItem>)
    requires ApplyInboundPolicy(cfg.policy, InternalProtocolUpdate(info, us), t).Some?
    ensures ApplyInboundPolicy(cfg.policy, InternalProtocolUpdate(info, us), t) == Some(InternalProtocolUpdate(info, kept))
    ensures (forall u :: u in kept ==> u in us) && forall n, d :: ItemsWorth(kept, n, d) <= ItemsWorth(us, n, d)
  {
    var a := InternalProtocolUpdate(info, us);
    if ApplyInboundPolicy(cfg.policy, a, t) == Some(a) {
      kept := us;
    } else {
      var allowed := cfg.policy.canReceive(Find(PeerName, t.peers, info.name).value, ChannelsOf(us));
      var names := set ch | ch in allowed :: ch.name;
      kept := Within(RouteName, us, names);
      forall n, d ensures ItemsWorth(kept, n, d) <= ItemsWorth(us, n, d) {
        WithinWorth(us, names, n, d);
      }
    }
  }

  /** An update is carried out on the items that pass, or nothing happens. */
  lemma UpdateOutcome(cfg: NodeConfig, s: BusState, info: PeerInfo, us: seq<UpdateItem>, clock: int, up: set<string>) returns (kept: seq<UpdateItem>)
    ensures (forall u :: u in kept ==> u in us) && forall n, d :: ItemsWorth(kept, n, d) <= ItemsWorth(us, n, d)
    ensures var a, plan := InternalProtocolUpdate(info, us), PlannedUpdate(cfg.name, info, kept, s.table, clock);
            var o := Dispatched(cfg, s, a, clock, up);
            (plan.changed && o == Carried(cfg, s, a, plan, up)) || (o.state.table == s.table && o.sends == [])
  {
    if ApplyInboundPolicy(cfg.policy, InternalProtocolUpdate(info, us), s.table).Some? {
      kept := Admitted(cfg, info, us, s.table);
    } else {
      kept := us;
    }
  }

  /** Under any policy, an update leaves routes and messages worth at most the routes before and its items. */
  lemma UpdateWorth(cfg: NodeConfig, s: BusState, info: PeerInfo, us: seq<UpdateItem>, clock: int, up: set<string>, n: nat, d: nat)
    requires (forall u :: u in us && u.verb.Add? ==> |u.nodePath| < n) && |s.table.peers| <= d
    ensures var o := Dispatched(cfg, s, InternalProtocolUpdate(info, us), clock, up);
            TableWorth(o.state.table.internal, d) + SendsWorth(o.sends, n, d) <= TableWorth(s.table.internal, d) + ItemsWorth(us, n, d)
  {
    var kept := UpdateOutcome(cfg, s, info, us, clock, up);
    if PlannedUpdate(cfg.name, info, kept, s.table, clock).changed {
      PlannedWorth(cfg, s, info, kept, InternalProtocolUpdate(info, us), clock, up, n, d);
    }
  }

  // -------------------------------------------------------------------------
  // The network
  // -------------------------------------------------------------------------

  ghost function FlightWorth(ms: multiset<Msg>, n: nat, d: nat): nat
    decreases |ms|
  {
    if ms == multiset{} then 0
    else
      var m :| m in ms;
      MsgWorth(m.items, n, d) + FlightWorth(ms - multiset{m}, n, d)
  }

  /** The sum does not depend on the order of choosing. */
  lemma {:induction false} FlightWorthWith(ms: multiset<Msg>, m: Msg, n: nat, d: nat)
    ensures FlightWorth(ms + multiset{m}, n, d) == FlightWorth(ms, n, d) + MsgWorth(m.items, n, d)
    decreases |ms|
  {
    var all := ms + multiset{m};
    var x :| x in all && FlightWorth(all, n, d) == MsgWorth(x.items, n, d) + FlightWorth(all - multiset{x}, n, d);
    if x == m {
      assert all - multiset{x} == ms;
    } else {
      var rest := ms - multiset{x};
      assert all - multiset{x} == rest + multiset{m} && ms == rest + multiset{x};
      FlightWorthWith(rest, m, n, d);
      FlightWorthWith(rest, x, n, d);
    }
  }

  lemma {:induction false} LaunchedWorth(ms: multiset<Msg>, src: string, sends: seq<Send>, n: nat, d: nat)
    ensures FlightWorth(ms + Launched(src, sends), n, d) == FlightWorth(ms, n, d) + SendsWorth(sends, n, d)
    decreases sends
  {
    if |sends| == 0 {
      assert ms + multiset{} == ms;
    } else {
      LaunchedWorth(ms, src, sends[1..], n, d);
      if sends[0].SendUpdate? {
        var m := Msg(src, sends[0].to, sends[0].items);
        assert ms + Launched(src, sends) == (ms + Launched(src, sends[1..])) + multiset{m};
        FlightWorthWith(ms + Launched(src, sends[1..]), m, n, d);
      }
    }
  }

  /** Yardsticks that deliveries keep: the nodes in some order, the names that occur, and the most peers of a node. */
  datatype Scale = Scale(order: seq<string>, names: set<string>, peers: nat)

  ghost predicate Distinct(order: seq<string>) {
    forall i, j :: 0 <= i < j < |order| ==> order[i] != order[j]
  }

  ghost predicate Named(m: Msg, names: set<string>) {
    forall u, x :: u in m.items && u.verb.Add? && x in u.nodePath ==> x in names
  }

  ghost predicate Fits(sc: Scale, net: Net) {
    && Distinct(sc.order) && (forall v :: v in sc.order <==> v in net.nodes)
    && net.nodes.Keys <= sc.names
    && (forall v :: v in net.nodes ==> |net.nodes[v].table.peers| <= sc.peers)
    && (forall m :: m in net.flight ==> Named(m, sc.names))
  }

  function TablesWorth(net: Net, order: seq<string>, d: nat): nat
    requires forall v :: v in order ==> v in net.nodes
  {
    if |order| == 0 then 0
    else
      assert order[0] in order;
      TableWorth(net.nodes[order[0]].table.internal, d) + TablesWorth(net, order[1..], d)
  }

  ghost function Measure(sc: Scale, net: Net): nat
    requires Fits(sc, net)
  {
    TablesWorth(net, sc.order, sc.peers) + FlightWorth(net.flight, |sc.names|, sc.peers)
  }

  /** A simple path through `s` that misses a member of `s` is shorter than `s`. */
  lemma {:induction false} SimpleIsShort(path: seq<string>, s: set<string>, away: string)
    requires Simple(path) && away in s && away !in path && forall x :: x in path ==> x in s
    ensures |path| < |s|
    decreases |path|
  {
    if |path| > 0 {
      var rest := path[1..];
      assert path[0] in path;
      forall x | x in rest ensures x in s - {path[0]} && x in path {
        var i :| 0 <= i < |rest| && rest[i] == x;
        assert path[i + 1] == x && path[0] != path[i + 1];
      }
      assert forall i :: 0 <= i < |rest| ==> rest[i] == path[i + 1];
      SimpleIsShort(rest, s - {path[0]}, away);
    }
  }

  /** Every route a report does not remove has the path of an item. */
  lemma {:induction false} LoopReportsItems(self: string, from: PeerInfo, us: seq<UpdateItem>, routes: seq<InternalRoute>, c: RouteChange)
    requires c in ItemLoop(self, from, us, routes).changes && !c.Removed?
    ensures c.x.OfPeer? && exists u :: u in us && u.verb.Add? && c.x.ir.nodePath == u.nodePath
  {
    var step := ItemStep(self, from, us[0], routes);
    if c in step.changes {
      assert us[0] in us;
    } else {
      LoopReportsItems(self, from, us[1..], step.routes, c);
    }
  }

  lemma StampedReport(self: string, info: PeerInfo, us: seq<UpdateItem>, t: RouteTable, clock: int, pool: Option<Pool>, c: RouteChange)
    requires c in PlanPorts(PlannedUpdate(self, info, us, t, clock), pool).changes && !c.Removed?
    ensures c.x.OfPeer? && exists u :: u in us && u.verb.Add? && c.x.ir.nodePath == u.nodePath
  {
    var ribPlan := PlannedUpdate(self, info, us, t, clock);
    var plan := PlanPorts(ribPlan, pool);
    StampingKeepsRoutes(ribPlan, pool);
    var i :| 0 <= i < |plan.changes| && plan.changes[i] == c;
    var b := ribPlan.changes[i];
    assert SameChange(c, b) && b in ribPlan.changes;
    LoopReportsItems(self, info, us, t.internal, b);
    assert Core(c.x.ir).nodePath == Core(b.x.ir).nodePath;
  }

  lemma ItemPath(cfg: NodeConfig, p: PeerRecord, cs: seq<RouteChange>, y: UpdateItem)
    requires y in ItemsFor(cfg, p, cs) && y.verb.Add?
    ensures exists c :: c in cs && !c.Removed? && y.nodePath == [cfg.name] + PathOf(c.x)
  {
    ItemsForMember(cfg, p, cs, y);
    var c :| c in cs && y in ItemFor(cfg, p, c);
    assert [cfg.name] + [] == [cfg.name];
  }

  lemma ReportExtends(cfg: NodeConfig, info: PeerInfo, us: seq<UpdateItem>, t: RouteTable, clock: int, pool: Option<Pool>, p: PeerRecord, y: UpdateItem)
    requires y in ItemsFor(cfg, p, PlanPorts(PlannedUpdate(cfg.name, info, us, t, clock), pool).changes) && y.verb.Add?
    ensures exists u :: u in us && u.verb.Add? && y.nodePath == [cfg.name] + u.nodePath
  {
    var cs := PlanPorts(PlannedUpdate(cfg.name, info, us, t, clock), pool).changes;
    ItemPath(cfg, p, cs, y);
    var c :| c in cs && !c.Removed? && y.nodePath == [cfg.name] + PathOf(c.x);
    StampedReport(cfg.name, info, us, t, clock, pool, c);
  }

  lemma SentReport(cfg: NodeConfig, s: BusState, info: PeerInfo, us: seq<UpdateItem>, clock: int, up: set<string>, x: Send)
    returns (kept: seq<UpdateItem>, p: PeerRecord)
    requires x in Dispatched(cfg, s, InternalProtocolUpdate(info, us), clock, up).sends && x.SendUpdate?
    ensures forall u :: u in kept ==> u in us
    ensures x.items == ItemsFor(cfg, p, PlanPorts(PlannedUpdate(cfg.name, info, kept, s.table, clock), s.pool).changes)
  {
    kept := UpdateOutcome(cfg, s, info, us, clock, up);
    p := CarriedReport(cfg, s, InternalProtocolUpdate(info, us), PlannedUpdate(cfg.name, info, kept, s.table, clock), up, x);
  }

  lemma CarriedReport(cfg: NodeConfig, s: BusState, a: Action, plan: PlanResult, up: set<string>, x: Send) returns (p: PeerRecord)
    requires a.InternalProtocolUpdate? && x in Carried(cfg, s, a, plan, up).sends
    ensures x.SendUpdate? && x.items == ItemsFor(cfg, p, PlanPorts(plan, s.pool).changes)
  {
    var stamped := PlanPorts(plan, s.pool);
    CarriedSendsAre(cfg, s, a, plan, up);
    FanOutMember(cfg, ConnectedPeers(stamped.next), stamped.changes, up, x);
    p :| p in ConnectedPeers(stamped.next) && x == SendUpdate(PeerName(p), ItemsFor(cfg, p, stamped.changes));
  }

  /** An advertisement sent on extends one received. */
  lemma SentExtendsItem(cfg: NodeConfig, s: BusState, info: PeerInfo, us: seq<UpdateItem>, clock: int, up: set<string>, x: Send, y: UpdateItem)
    requires x in Dispatched(cfg, s, InternalProtocolUpdate(info, us), clock, up).sends && x.SendUpdate? && y in x.items && y.verb.Add?
    ensures exists u :: u in us && u.verb.Add? && y.nodePath == [cfg.name] + u.nodePath
  {
    var kept, p := SentReport(cfg, s, info, us, clock, up, x);
    ReportExtends(cfg, info, kept, s.table, clock, s.pool, p, y);
  }

  lemma PeersStay(cfg: NodeConfig, s: BusState, info: PeerInfo, us: seq<UpdateItem>, clock: int, up: set<string>)
    ensures |Dispatched(cfg, s, InternalProtocolUpdate(info, us), clock, up).state.table.peers| == |s.table.peers|
  {
    TableAfter(cfg, s, InternalProtocolUpdate(info, us), clock, up);
    AdmittedItems(cfg, InternalProtocolUpdate(info, us), s.table);
  }

  lemma {:induction false} TablesWorthSame(net: Net, net': Net, order: seq<string>, d: nat)
    requires forall v :: v in order ==> v in net.nodes && v in net'.nodes && net'.nodes[v] == net.nodes[v]
    ensures TablesWorth(net', order, d) == TablesWorth(net, order, d)
  {
    if |order| > 0 {
      assert order[0] in order && forall v :: v in order[1..] ==> v in order;
      TablesWorthSame(net, net', order[1..], d);
    }
  }

  lemma {:induction false} OneTableMoves(net: Net, net': Net, order: seq<string>, v: string, d: nat)
    requires Distinct(order) && v in order
    requires forall w :: w in order ==> w in net.nodes && w in net'.nodes && (w != v ==> net'.nodes[w] == net.nodes[w])
    ensures TablesWorth(net', order, d) - TablesWorth(net, order, d)
            == TableWorth(net'.nodes[v].table.internal, d) - TableWorth(net.nodes[v].table.internal, d)
  {
    var rest := order[1..];
    assert order[0] in order && forall w :: w in rest ==> w in order;
    assert forall i :: 0 <= i < |rest| ==> rest[i] == order[i + 1];
    if order[0] == v {
      assert v !in rest;
      TablesWorthSame(net, net', rest, d);
    } else {
      OneTableMoves(net, net', rest, v, d);
    }
  }

  ghost predicate Ends(net: Net, e: Event) {
    (e.Deliver? || e.Lose?) && Enabled(net, e)
  }

  lemma TakenWorth(net: Net, m: Msg, n: nat, d: nat)
    requires m in net.flight
    ensures FlightWorth(net.flight - multiset{m}, n, d) + MsgWorth(m.items, n, d) == FlightWorth(net.flight, n, d)
  {
    assert net.flight - multiset{m} + multiset{m} == net.flight;
    FlightWorthWith(net.flight - multiset{m}, m, n, d);
  }

  lemma ItemsAreShort(sc: Scale, net: Net, m: Msg)
    requires PathVectors(net) && Fits(sc, net) && m in net.flight && m.dst in net.nodes
    ensures forall u :: u in m.items && u.verb.Add? ==> |u.nodePath| < |sc.names|
  {
    forall u | u in m.items && u.verb.Add? ensures |u.nodePath| < |sc.names| {
      assert GoodItem(m.src, m.dst, u) && Named(m, sc.names);
      SimpleIsShort(u.nodePath, sc.names, m.dst);
    }
  }

  lemma DispatchMoves(sc: Scale, net: Net, m: Msg, info: PeerInfo, clock: int, up: set<string>)
    requires PathVectors(net) && Fits(sc, net) && Ends(net, Deliver(m, info, clock, up)) && SenderChecks(m.src, m.items)
    ensures var net', n, d := Exec(net, Deliver(m, info, clock, up)), |sc.names|, sc.peers;
            && net'.nodes.Keys == net.nodes.Keys
            && TablesWorth(net', sc.order, d) + FlightWorth(net'.flight, n, d) < TablesWorth(net, sc.order, d) + FlightWorth(net.flight, n, d)
  {
    var net', n, d := Exec(net, Deliver(m, info, clock, up)), |sc.names|, sc.peers;
    var s := net.nodes[m.dst];
    ItemsAreShort(sc, net, m);
    UpdateWorth(net.cfgs[m.dst], s, info, m.items, clock, up, n, d);
    TakenWorth(net, m, n, d);
    LaunchedWorth(net.flight - multiset{m}, m.dst, Dispatched(net.cfgs[m.dst], s, InternalProtocolUpdate(info, m.items), clock, up).sends, n, d);
    OneTableMoves(net, net', sc.order, m.dst, d);
  }

  lemma StillFits(sc: Scale, net: Net, e: Event)
    requires Configured(net) && Fits(sc, net) && Ends(net, e)
    ensures Fits(sc, Exec(net, e))
  {
    var net' := Exec(net, e);
    if e.Deliver? {
      var v, s := e.msg.dst, net.nodes[e.msg.dst];
      PeersStay(net.cfgs[v], s, e.info, e.msg.items, e.clock, e.up);
      forall m | m in net'.flight ensures Named(m, sc.names) {
        if m !in net.flight {
          assert Named(e.msg, sc.names);
          forall y, x | y in m.items && y.verb.Add? && x in y.nodePath ensures x in sc.names {
            SentExtendsItem(net.cfgs[v], s, e.info, e.msg.items, e.clock, e.up, SendUpdate(m.dst, m.items), y);
          }
        }
      }
    }
  }

  /** The measure drops at every delivery and every loss, accepted, ignored or withdrawn, under any policy. */
  lemma MeasureDrops(sc: Scale, net: Net, e: Event)
    requires PathVectors(net) && Fits(sc, net) && Ends(net, e)
    ensures Fits(sc, Exec(net, e)) && Measure(sc, Exec(net, e)) < Measure(sc, net)
  {
    StillFits(sc, net, e);
    if e.Deliver? && SenderChecks(e.msg.src, e.msg.items) {
      DispatchMoves(sc, net, e.msg, e.info, e.clock, e.up);
    } else {
      TakenWorth(net, e.msg, |sc.names|, sc.peers);
      TablesWorthSame(net, Exec(net, e), sc.order, sc.peers);
    }
  }

  /** A run of deliveries and losses only. */
  ghost predicate EndingRun(net: Net, es: seq<Event>): (possible: bool)
    requires Configured(net)
    ensures possible ==> CanRun(net, es)
    decreases es
  {
    |es| > 0 ==> Ends(net, es[0]) && EndingRun(Exec(net, es[0]), es[1..])
  }

  /** From any state with good paths: no run of deliveries and losses is longer than the measure of its start. */
  lemma {:induction false} MessagesRunOut(sc: Scale, net: Net, es: seq<Event>)
    requires PathVectors(net) && Fits(sc, net) && EndingRun(net, es)
    ensures |es| <= Measure(sc, net)
    decreases es
  {
    if |es| > 0 {
      MeasureDrops(sc, net, es[0]);
      StepKeepsPathVectors(net, es[0]);
      MessagesRunOut(sc, Exec(net, es[0]), es[1..]);
    }
  }

  ghost function Enumerate(s: set<string>): (r: seq<string>)
    ensures forall x :: x in r <==> x in s
  {
    if s == {} then []
    else
      var x :| x in s;
      [x] + Enumerate(s - {x})
  }

  lemma {:induction false} EnumerateDistinct(s: set<string>)
    ensures Distinct(Enumerate(s))
  {
    if s != {} {
      var r := Enumerate(s);
      var rest := Enumerate(s - {r[0]});
      EnumerateDistinct(s - {r[0]});
      assert r == [r[0]] + rest;
      forall i, j | 0 <= i < j < |r| ensures r[i] != r[j] {
        assert r[j] == rest[j - 1] && rest[j - 1] in rest;
        assert i > 0 ==> r[i] == rest[i - 1];
      }
    }
  }

  ghost function MostPeers(net: Net, order: seq<string>): (r: nat)
    requires forall v :: v in order ==> v in net.nodes
    ensures forall v :: v in order ==> |net.nodes[v].table.peers| <= r
  {
    if |order| == 0 then 0
    else
      assert order[0] in order;
      |net.nodes[order[0]].table.peers| + MostPeers(net, order[1..])
  }

  function NamesIn(us: seq<UpdateItem>): (r: set<string>)
    ensures forall u, x :: u in us && x in u.nodePath ==> x in r
  {
    if |us| == 0 then {} else (set x | x in us[0].nodePath) + NamesIn(us[1..])
  }

  function AllNames(flight: multiset<Msg>): set<string> {
    set m, x | m in flight && x in NamesIn(m.items) :: x
  }

  /** Every network has such yardsticks. */
  lemma ScaleExists(net: Net) returns (sc: Scale)
    ensures Fits(sc, net)
  {
    var order := Enumerate(net.nodes.Keys);
    EnumerateDistinct(net.nodes.Keys);
    sc := Scale(order, net.nodes.Keys + AllNames(net.flight), MostPeers(net, order));
    forall m | m in net.flight ensures Named(m, sc.names) {
      forall u, x | u in m.items && u.verb.Add? && x in u.nodePath ensures x in sc.names {
        assert x in NamesIn(m.items);
      }
    }
  }
}
