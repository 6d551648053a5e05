/** Ports never influence routing: tables that differ in `envoyPort` alone behave alike. */
module PortErasure {
  import opened KeyedLists
  import opened RouteTypes
  import opened Rib
  import opened RibTheorems
  import opened PortAllocator
  import opened BusSpec

  function Portless(ch: DataChannel): DataChannel { ch.(envoyPort := None) }

  function Core(r: InternalRoute): InternalRoute { r.(ch := Portless(r.ch)) }

  ghost predicate SameChannels(xs: seq<DataChannel>, ys: seq<DataChannel>) {
    |xs| == |ys| && forall i :: 0 <= i < |xs| ==> Portless(xs[i]) == Portless(ys[i])
  }

  ghost predicate SameRoutes(xs: seq<InternalRoute>, ys: seq<InternalRoute>) {
    |xs| == |ys| && forall i :: 0 <= i < |xs| ==> Core(xs[i]) == Core(ys[i])
  }

  ghost predicate SameButPorts(t: RouteTable, u: RouteTable) {
    t.peers == u.peers && SameChannels(t.local, u.local) && SameRoutes(t.internal, u.internal)
  }

  // -------------------------------------------------------------------------
  // Stamping changes nothing but ports
  // -------------------------------------------------------------------------

  lemma {:induction false} StampLocalsShape(chs: seq<DataChannel>, s: LocalStamp)
    ensures var r := StampLocals(chs, s);
            |r.channels| == |s.channels| + |chs| && r.channels[..|s.channels|] == s.channels
            && forall i :: 0 <= i < |chs| ==> Portless(r.channels[|s.channels| + i]) == Portless(chs[i])
    decreases chs
  {
    if |chs| > 0 {
      var s' := StampLocal(chs[0], s);
      StampLocalsShape(chs[1..], s');
      var r := StampLocals(chs, s);
      assert r.channels[..|s'.channels|][..|s.channels|] == s.channels;
      forall i | 0 <= i < |chs| ensures Portless(r.channels[|s.channels| + i]) == Portless(chs[i]) {
        if i == 0 {
          assert r.channels[|s.channels|] == r.channels[..|s'.channels|][|s.channels|];
        } else {
          assert r.channels[|s.channels| + i] == r.channels[|s'.channels| + (i - 1)];
        }
      }
    }
  }

  lemma {:induction false} StampEgressesShape(rs: seq<InternalRoute>, s: EgressStamp)
    ensures var r := StampEgresses(rs, s);
            |r.routes| == |s.routes| + |rs| && r.routes[..|s.routes|] == s.routes
            && forall i :: 0 <= i < |rs| ==> Core(r.routes[|s.routes| + i]) == Core(rs[i])
    decreases rs
  {
    if |rs| > 0 {
      var s' := StampEgress(rs[0], s);
      StampEgressesShape(rs[1..], s');
      var r := StampEgresses(rs, s);
      assert r.routes[..|s'.routes|][..|s.routes|] == s.routes;
      forall i | 0 <= i < |rs| ensures Core(r.routes[|s.routes| + i]) == Core(rs[i]) {
        if i == 0 {
          assert r.routes[|s.routes|] == r.routes[..|s'.routes|][|s.routes|];
        } else {
          assert r.routes[|s.routes| + i] == r.routes[|s'.routes| + (i - 1)];
        }
      }
    }
  }

  function CoreOf(x: Route): Route {
    match x case OfLocal(ch) => OfLocal(Portless(ch)) case OfPeer(r) => OfPeer(Core(r))
  }

  /** The same report up to ports. */
  ghost predicate SameChanges(cs: seq<RouteChange>, ds: seq<RouteChange>) {
    |cs| == |ds| && forall i :: 0 <= i < |cs| ==> SameChange(cs[i], ds[i])
  }

  predicate SameChange(c: RouteChange, d: RouteChange) {
    (c.Added? <==> d.Added?) && (c.Updated? <==> d.Updated?) && CoreOf(c.x) == CoreOf(d.x)
  }

  lemma StampChangesShape(cs: seq<RouteChange>, granted: map<string, int>, egress: map<string, int>)
    ensures SameChanges(StampChanges(cs, granted, egress), cs)
  {
    forall i | 0 <= i < |cs| ensures SameChange(StampChange(cs[i], granted, egress), cs[i]) {}
  }

  /** Port planning stamps ports and leaves everything else as planned. */
  lemma StampingKeepsRoutes(plan: PlanResult, pool: Option<Pool>)
    ensures var stamped := PlanPorts(plan, pool);
            SameButPorts(stamped.next, plan.next) && SameChanges(stamped.changes, plan.changes) && stamped.prev == plan.prev
  {
    if pool.Some? {
      var l0, e0 := LocalStamp([], Freed(plan, pool.value), map[]), EgressStamp([], StampedLocals(plan, pool.value).ports, map[]);
      var l, e := StampLocals(plan.next.local, l0), StampEgresses(plan.next.internal, e0);
      StampLocalsShape(plan.next.local, l0);
      StampEgressesShape(plan.next.internal, e0);
      assert SameChannels(l.channels, plan.next.local) by {
        assert forall i :: 0 <= i < |plan.next.local| ==> l.channels[i] == l.channels[|l0.channels| + i];
      }
      assert SameRoutes(e.routes, plan.next.internal) by {
        assert forall i :: 0 <= i < |plan.next.internal| ==> e.routes[i] == e.routes[|e0.routes| + i];
      }
      StampChangesShape(plan.changes, l.granted, e.egress);
    }
  }

  // -------------------------------------------------------------------------
  // Plans ignore ports
  // -------------------------------------------------------------------------

  lemma {:induction false} SameNameIndex(xs: seq<DataChannel>, ys: seq<DataChannel>, name: string)
    requires SameChannels(xs, ys)
    ensures IndexOf(ChannelName, xs, name) == IndexOf(ChannelName, ys, name)
  {
    if |xs| > 0 {
      assert ChannelName(Portless(xs[0])) == ChannelName(Portless(ys[0]));
      assert forall i :: 0 <= i < |xs[1..]| ==> xs[1..][i] == xs[i + 1] && ys[1..][i] == ys[i + 1];
      SameNameIndex(xs[1..], ys[1..], name);
    }
  }

  lemma SameRoutesRest(xs: seq<InternalRoute>, ys: seq<InternalRoute>)
    requires SameRoutes(xs, ys) && |xs| > 0
    ensures KeyOf(xs[0]) == KeyOf(ys[0]) && Via(xs[0]) == Via(ys[0]) && Core(xs[0]) == Core(ys[0])
    ensures SameRoutes(xs[1..], ys[1..])
  {
    assert KeyOf(Core(xs[0])) == KeyOf(Core(ys[0])) && Via(Core(xs[0])) == Via(Core(ys[0]));
    assert forall i :: 0 <= i < |xs[1..]| ==> xs[1..][i] == xs[i + 1] && ys[1..][i] == ys[i + 1];
  }

  lemma SameRoutesCons(x: InternalRoute, xs: seq<InternalRoute>, y: InternalRoute, ys: seq<InternalRoute>)
    requires SameRoutes(xs, ys) && Core(x) == Core(y)
    ensures SameRoutes([x] + xs, [y] + ys)
  {
  }

  lemma {:induction false} SameKeyIndex(xs: seq<InternalRoute>, ys: seq<InternalRoute>, k: RouteKey)
    requires SameRoutes(xs, ys)
    ensures IndexOf(KeyOf, xs, k) == IndexOf(KeyOf, ys, k)
  {
    if |xs| > 0 {
      SameRoutesRest(xs, ys);
      SameKeyIndex(xs[1..], ys[1..], k);
    }
  }

  lemma {:induction false} SameChannelsLeft(xs: seq<DataChannel>, ys: seq<DataChannel>, names: set<string>)
    requires SameChannels(xs, ys)
    ensures SameChannels(Without(ChannelName, xs, names), Without(ChannelName, ys, names))
  {
    if |xs| > 0 {
      assert ChannelName(Portless(xs[0])) == ChannelName(Portless(ys[0]));
      assert forall i :: 0 <= i < |xs[1..]| ==> xs[1..][i] == xs[i + 1] && ys[1..][i] == ys[i + 1];
      SameChannelsLeft(xs[1..], ys[1..], names);
    }
  }

  lemma {:induction false} SameRoutesLeft(xs: seq<InternalRoute>, ys: seq<InternalRoute>, names: set<string>)
    requires SameRoutes(xs, ys)
    ensures SameRoutes(Without(Via, xs, names), Without(Via, ys, names))
  {
    if |xs| > 0 {
      SameRoutesRest(xs, ys);
      SameRoutesLeft(xs[1..], ys[1..], names);
      SameRoutesCons(xs[0], Without(Via, xs[1..], names), ys[0], Without(Via, ys[1..], names));
    }
  }

  lemma {:induction false} SameKeysLeft(xs: seq<InternalRoute>, ys: seq<InternalRoute>, keys: set<RouteKey>)
    requires SameRoutes(xs, ys)
    ensures SameRoutes(Without(KeyOf, xs, keys), Without(KeyOf, ys, keys))
  {
    if |xs| > 0 {
      SameRoutesRest(xs, ys);
      SameKeysLeft(xs[1..], ys[1..], keys);
      SameRoutesCons(xs[0], Without(KeyOf, xs[1..], keys), ys[0], Without(KeyOf, ys[1..], keys));
    }
  }

  /** One item acts alike on routes that differ in ports alone. */
  lemma StepIgnoresPorts(self: string, from: PeerInfo, u: UpdateItem, xs: seq<InternalRoute>, ys: seq<InternalRoute>)
    requires SameRoutes(xs, ys)
    ensures var e, f := ItemStep(self, from, u, xs), ItemStep(self, from, u, ys);
            SameRoutes(e.routes, f.routes) && |e.changes| == |f.changes|
  {
    var k := ItemKey(u);
    SameKeyIndex(xs, ys, k);
    SameKeysLeft(xs, ys, {k});
    var i := IndexOf(KeyOf, xs, k);
    if i >= 0 {
      assert Core(xs[i]) == Core(ys[i]);
      assert xs[i].nodePath == Core(xs[i]).nodePath && xs[i].isStale == Core(xs[i]).isStale;
      assert ys[i].nodePath == Core(ys[i]).nodePath && ys[i].isStale == Core(ys[i]).isStale;
    }
  }

  lemma {:induction false} LoopIgnoresPorts(self: string, from: PeerInfo, us: seq<UpdateItem>, xs: seq<InternalRoute>, ys: seq<InternalRoute>)
    requires SameRoutes(xs, ys)
    ensures var e, f := ItemLoop(self, from, us, xs), ItemLoop(self, from, us, ys);
            SameRoutes(e.routes, f.routes) && |e.changes| == |f.changes|
  {
    if |us| > 0 {
      StepIgnoresPorts(self, from, us[0], xs, ys);
      LoopIgnoresPorts(self, from, us[1..], ItemStep(self, from, us[0], xs).routes, ItemStep(self, from, us[0], ys).routes);
    }
  }

  lemma SamePurge(now: int, t: RouteTable, u: RouteTable)
    requires SameButPorts(t, u)
    ensures Purged(now, t) == Purged(now, u)
  {
    forall name ensures HasStale(t.internal, name) == HasStale(u.internal, name) {
      forall i | 0 <= i < |t.internal|
        ensures t.internal[i] in t.internal && u.internal[i] in u.internal
        ensures Via(t.internal[i]) == Via(u.internal[i]) && t.internal[i].isStale == u.internal[i].isStale
      {
        assert Via(Core(t.internal[i])) == Via(Core(u.internal[i])) && Core(t.internal[i]).isStale == Core(u.internal[i]).isStale;
      }
    }
  }

  ghost predicate AgreesUpToPorts(p: PlanResult, q: PlanResult) {
    p.changed == q.changed && SameButPorts(p.next, q.next)
  }

  lemma HealthIgnoresPorts(name: string, h: Health, l: Latency, c: string, t: RouteTable, u: RouteTable)
    requires SameButPorts(t, u)
    ensures AgreesUpToPorts(PlanLocalRouteHealthUpdate(name, h, l, c, t), PlanLocalRouteHealthUpdate(name, h, l, c, u))
  {
    SameNameIndex(t.local, u.local, name);
    var i := IndexOf(ChannelName, t.local, name);
    if i >= 0 {
      assert Portless(t.local[i]) == Portless(u.local[i]);
    }
  }

  lemma LocalIgnoresPorts(self: string, a: Action, t: RouteTable, u: RouteTable, clock: int)
    requires SameButPorts(t, u)
    requires a.LocalRouteCreate? || a.LocalRouteDelete? || a.LocalRouteHealthUpdate?
    ensures AgreesUpToPorts(Planned(self, a, t, clock), Planned(self, a, u, clock))
  {
    match a
    case LocalRouteCreate(ch) => SameNameIndex(t.local, u.local, ch.name);
    case LocalRouteDelete(name) =>
      SameNameIndex(t.local, u.local, name);
      SameChannelsLeft(t.local, u.local, {name});
    case LocalRouteHealthUpdate(name, h, l, c) => HealthIgnoresPorts(name, h, l, c, t, u);
  }

  lemma CloseIgnoresPorts(self: string, info: PeerInfo, code: int, t: RouteTable, u: RouteTable, clock: int)
    requires SameButPorts(t, u)
    ensures AgreesUpToPorts(PlanInternalProtocolClose(info, code, t), PlanInternalProtocolClose(info, code, u))
  {
    SameRoutesLeft(t.internal, u.internal, {info.name});
    forall i | 0 <= i < |t.internal|
      ensures Core(StaleVia(t.internal, info.name)[i]) == Core(StaleVia(u.internal, info.name)[i])
    {
      assert Core(t.internal[i]) == Core(u.internal[i]);
      assert Via(Core(t.internal[i])) == Via(Core(u.internal[i]));
    }
  }

  lemma UpdateIgnoresPorts(self: string, info: PeerInfo, us: seq<UpdateItem>, t: RouteTable, u: RouteTable, clock: int)
    requires SameButPorts(t, u)
    ensures AgreesUpToPorts(PlannedUpdate(self, info, us, t, clock), PlannedUpdate(self, info, us, u, clock))
  {
    LoopIgnoresPorts(self, info, us, t.internal, u.internal);
    UpdatedRoutesAre(self, info, us, t, clock);
    UpdatedRoutesAre(self, info, us, u, clock);
  }

  lemma TickIgnoresPorts(now: int, t: RouteTable, u: RouteTable)
    requires SameButPorts(t, u)
    ensures AgreesUpToPorts(PlannedTick(now, t), PlannedTick(now, u))
  {
    SamePurge(now, t, u);
    SameRoutesLeft(t.internal, u.internal, Purged(now, t));
  }

  /** Every action decides alike on tables that differ in ports alone, and keeps them so. */
  lemma PlanIgnoresPorts(self: string, a: Action, t: RouteTable, u: RouteTable, clock: int)
    requires SameButPorts(t, u)
    ensures AgreesUpToPorts(Planned(self, a, t, clock), Planned(self, a, u, clock))
  {
    match a
    case LocalRouteCreate(_) => LocalIgnoresPorts(self, a, t, u, clock);
    case LocalRouteDelete(_) => LocalIgnoresPorts(self, a, t, u, clock);
    case LocalRouteHealthUpdate(_, _, _, _) => LocalIgnoresPorts(self, a, t, u, clock);
    case LocalPeerDelete(name) => SameRoutesLeft(t.internal, u.internal, {name});
    case InternalProtocolClose(info, code) => CloseIgnoresPorts(self, info, code, t, u, clock);
    case InternalProtocolUpdate(info, us) => UpdateIgnoresPorts(self, info, us, t, u, clock);
    case Tick(now) => TickIgnoresPorts(now, t, u);
    case _ =>
  }
}
