/** After every dispatch the ports stamped on the table are the allocator's. */
module PortAgreement {
  import opened KeyedLists
  import opened RouteTypes
  import opened Rib
  import opened RibTheorems
  import opened PortAllocator
  import opened BusSpec
  import opened PortErasure
  import opened DispatchFacts

  /** Every ported local channel carries the port the pool has for its name. */
  ghost predicate LocalsAgree(chs: seq<DataChannel>, pool: Pool) {
    forall ch :: ch in chs && Ported(ch) ==> PortOf(pool, ch.name) == ch.envoyPort
  }

  /** Every internal route whose egress key has a port carries that port. */
  ghost predicate EgressAgrees(rs: seq<InternalRoute>, pool: Pool) {
    forall r :: r in rs && EgressKeyOf(r) in pool.taken ==> r.ch.envoyPort == Some(pool.taken[EgressKeyOf(r)])
  }

  ghost predicate PortsAgree(t: RouteTable, pool: Pool) {
    LocalsAgree(t.local, pool) && EgressAgrees(t.internal, pool)
  }

  // -------------------------------------------------------------------------
  // Releases
  // -------------------------------------------------------------------------

  /** Names of the routes a report removes, and their egress keys. */
  predicate Touches(c: RouteChange, key: string) {
    c.Removed? && match c.x
                  case OfLocal(ch) => key == ch.name
                  case OfPeer(r) => key == r.ch.name || key == EgressKeyOf(r)
  }

  ghost predicate KeptBy(p: Pool, q: Pool, key: string) {
    PortOf(q, key) == PortOf(p, key)
  }

  lemma FreeKeyFacts(p: Ports, key: string, other: string, ports: set<int>)
    requires Partitions(p.pool, ports)
    ensures Partitions(FreeKey(p, key).pool, ports)
    ensures other != key ==> KeptBy(p.pool, FreeKey(p, key).pool, other)
  {
    ReleasePartitions(p.pool, key, ports);
  }

  lemma {:induction false} FreeChangesFacts(p: Ports, cs: seq<RouteChange>, key: string, ports: set<int>)
    requires Partitions(p.pool, ports)
    ensures Partitions(FreeChanges(p, cs).pool, ports)
    ensures (forall c :: c in cs ==> !Touches(c, key)) ==> KeptBy(p.pool, FreeChanges(p, cs).pool, key)
    decreases cs
  {
    if |cs| > 0 {
      assert cs[0] in cs;
      match cs[0] {
        case Removed(OfLocal(ch)) => FreeKeyFacts(p, ch.name, key, ports);
        case Removed(OfPeer(r)) =>
          FreeKeyFacts(p, r.ch.name, key, ports);
          FreeKeyFacts(FreeKey(p, r.ch.name), EgressKeyOf(r), key, ports);
        case _ =>
      }
      FreeChangesFacts(FreeChange(p, cs[0]), cs[1..], key, ports);
    }
  }

  lemma {:induction false} HonourFacts(p: Ports, ops: seq<PortOp>, key: string, ports: set<int>)
    requires Partitions(p.pool, ports)
    ensures Partitions(Honour(p, ops).pool, ports)
    ensures (forall op :: op in ops ==> op.key != key) ==> KeptBy(p.pool, Honour(p, ops).pool, key)
    decreases ops
  {
    if |ops| > 0 {
      assert ops[0] in ops;
      ReleasePartitions(p.pool, ops[0].key, ports);
      HonourFacts(if ops[0].Released? then Ports(Release(p.pool, ops[0].key), p.ops + [ops[0]]) else p, ops[1..], key, ports);
    }
  }

  /** Every port release a plan asks for belongs to a route it reports as removed. */
  ghost predicate OpsNamed(ops: seq<PortOp>, cs: seq<RouteChange>) {
    forall op :: op in ops ==> exists c :: c in cs && Touches(c, op.key)
  }

  lemma {:induction false} ReleasesNamed(rs: seq<InternalRoute>)
    ensures OpsNamed(PortReleases(rs), RemovedRoutes(rs))
  {
    if |rs| > 0 {
      ReleasesNamed(rs[1..]);
      var cs := RemovedRoutes(rs);
      assert cs[1..] == RemovedRoutes(rs[1..]);
      assert Touches(cs[0], rs[0].ch.name) && cs[0] in cs;
      forall op | op in PortReleases(rs) ensures exists c :: c in cs && Touches(c, op.key) {
        if op in PortReleases(rs[1..]) {
          var c :| c in RemovedRoutes(rs[1..]) && Touches(c, op.key);
          assert c in cs;
        }
      }
    }
  }

  lemma {:induction false} LoopOpsNamed(self: string, from: PeerInfo, us: seq<UpdateItem>, routes: seq<InternalRoute>)
    ensures var e := ItemLoop(self, from, us, routes); OpsNamed(e.portOps, e.changes)
  {
    if |us| > 0 {
      var step := ItemStep(self, from, us[0], routes);
      var rest := ItemLoop(self, from, us[1..], step.routes);
      LoopOpsNamed(self, from, us[1..], step.routes);
      var e := ItemLoop(self, from, us, routes);
      forall op | op in e.portOps ensures exists c :: c in e.changes && Touches(c, op.key) {
        if op in step.portOps {
          assert step.changes[0] in e.changes && Touches(step.changes[0], op.key);
        } else {
          var c :| c in rest.changes && Touches(c, op.key);
          assert c in e.changes;
        }
      }
    }
  }

  lemma PlanOpsNamed(self: string, a: Action, t: RouteTable, clock: int)
    ensures var plan := Planned(self, a, t, clock); OpsNamed(plan.portOps, plan.changes)
  {
    match a
    case LocalPeerDelete(name) => ReleasesNamed(Within(Via, t.internal, {name}));
    case InternalProtocolClose(info, code) => ReleasesNamed(Within(Via, t.internal, {info.name}));
    case InternalProtocolUpdate(info, us) => LoopOpsNamed(self, info, us, t.internal);
    case Tick(now) => ReleasesNamed(Within(Via, t.internal, Purged(now, t)));
    case LocalRouteDelete(name) =>
      var plan := Planned(self, a, t, clock);
      if plan.changed {
        assert plan.changes[0] in plan.changes && Touches(plan.changes[0], name);
      }
    case _ =>
  }

  // -------------------------------------------------------------------------
  // Stamping
  // -------------------------------------------------------------------------

  /** Allocation for one key never moves another key's port. */
  lemma AllocateKeeps(pool: Pool, key: string, other: string)
    ensures other in pool.taken ==> KeptBy(pool, Allocate(pool, key), other)
    ensures PortOf(Allocate(pool, key), key).None? ==> Allocate(pool, key) == pool && |pool.free| == 0
  {
  }

  lemma {:induction false} StampLocalsAgree(chs: seq<DataChannel>, s: LocalStamp, ports: set<int>)
    requires Partitions(s.ports.pool, ports) && LocalsAgree(s.channels, s.ports.pool) && LocalsAgree(chs, s.ports.pool)
    ensures var r := StampLocals(chs, s);
            Partitions(r.ports.pool, ports) && LocalsAgree(r.channels, r.ports.pool)
    decreases chs
  {
    if |chs| > 0 {
      var ch, s' := chs[0], StampLocal(chs[0], s);
      assert ch in chs;
      AllocatePartitions(s.ports.pool, ch.name, ports);
      forall x | (x in s'.channels || x in chs[1..]) && Ported(x) ensures PortOf(s'.ports.pool, x.name) == x.envoyPort {
        AllocateKeeps(s.ports.pool, ch.name, x.name);
      }
      StampLocalsAgree(chs[1..], s', ports);
    }
  }

  lemma {:induction false} StampEgressKeeps(rs: seq<InternalRoute>, s: EgressStamp, key: string)
    requires key in s.ports.pool.taken
    ensures KeptBy(s.ports.pool, StampEgresses(rs, s).ports.pool, key)
    decreases rs
  {
    if |rs| > 0 {
      AllocateKeeps(s.ports.pool, EgressKeyOf(rs[0]), key);
      StampEgressKeeps(rs[1..], StampEgress(rs[0], s), key);
    }
  }

  /** The egress map records the pool, and a route left without a port means the pool is exhausted. */
  ghost predicate EgressState(s: EgressStamp) {
    && EgressAgrees(s.routes, s.ports.pool)
    && (forall k :: k in s.egress ==> PortOf(s.ports.pool, k) == Some(s.egress[k]))
    && (forall r :: r in s.routes ==> if EgressKeyOf(r) in s.ports.pool.taken then EgressKeyOf(r) in s.egress else |s.ports.pool.free| == 0)
  }

  lemma StampEgressStep(r: InternalRoute, s: EgressStamp)
    requires EgressState(s)
    ensures EgressState(StampEgress(r, s))
  {
    var s', key := StampEgress(r, s), EgressKeyOf(r);
    forall x | x in s.routes
      ensures EgressKeyOf(x) in s'.ports.pool.taken ==> x.ch.envoyPort == Some(s'.ports.pool.taken[EgressKeyOf(x)])
      ensures if EgressKeyOf(x) in s'.ports.pool.taken then EgressKeyOf(x) in s'.egress else |s'.ports.pool.free| == 0
    {
      AllocateKeeps(s.ports.pool, key, EgressKeyOf(x));
    }
    forall k | k in s.egress ensures PortOf(s'.ports.pool, k) == Some(s'.egress[k]) {
      AllocateKeeps(s.ports.pool, key, k);
    }
    assert forall port :: EgressKeyOf(WithPort(r, port)) == key;
  }

  lemma {:induction false} StampEgressesAgree(rs: seq<InternalRoute>, s: EgressStamp, ports: set<int>)
    requires Partitions(s.ports.pool, ports) && EgressState(s)
    ensures Partitions(StampEgresses(rs, s).ports.pool, ports) && EgressState(StampEgresses(rs, s))
    decreases rs
  {
    if |rs| > 0 {
      AllocatePartitions(s.ports.pool, EgressKeyOf(rs[0]), ports);
      StampEgressStep(rs[0], s);
      StampEgressesAgree(rs[1..], StampEgress(rs[0], s), ports);
    }
  }

  // -------------------------------------------------------------------------
  // One dispatch
  // -------------------------------------------------------------------------

  /** No surviving ported local channel shares its name with a removed internal route or with that route's egress key. */
  ghost predicate Apart(plan: PlanResult) {
    forall ch, c :: ch in plan.next.local && Ported(ch) && c in plan.changes && c.x.OfPeer? ==> !Touches(c, ch.name)
  }

  /** The local channels of the new table were unported or already agreed. */
  lemma SurvivorsAgree(self: string, a: Action, t: RouteTable, clock: int, pool: Pool, ports: set<int>)
    requires WellFormed(self, t) && LocalsAgree(t.local, pool) && Partitions(pool, ports)
    requires a.LocalRouteCreate? ==> !Ported(a.ch)
    requires Apart(Planned(self, a, t, clock))
    ensures var plan := Planned(self, a, t, clock);
            Partitions(Freed(plan, pool).pool, ports) && LocalsAgree(plan.next.local, Freed(plan, pool).pool)
  {
    var plan := Planned(self, a, t, clock);
    PlanOpsNamed(self, a, t, clock);
    FreeChangesFacts(Ports(pool, []), plan.changes, "", ports);
    HonourFacts(FreeChanges(Ports(pool, []), plan.changes), plan.portOps, "", ports);
    forall ch | ch in plan.next.local && Ported(ch) ensures PortOf(Freed(plan, pool).pool, ch.name) == ch.envoyPort {
      LocalFrom(self, a, t, clock, ch);
      forall c | c in plan.changes ensures !Touches(c, ch.name) {}
      FreeChangesFacts(Ports(pool, []), plan.changes, ch.name, ports);
      HonourFacts(FreeChanges(Ports(pool, []), plan.changes), plan.portOps, ch.name, ports);
    }
  }

  /** A ported channel of the new table was in the old one with its port, and its name is not reported removed locally. */
  lemma LocalFrom(self: string, a: Action, t: RouteTable, clock: int, ch: DataChannel)
    requires WellFormed(self, t) && (a.LocalRouteCreate? ==> !Ported(a.ch))
    requires ch in Planned(self, a, t, clock).next.local && Ported(ch)
    ensures exists x :: x in t.local && x.name == ch.name && x.envoyPort == ch.envoyPort
    ensures forall c :: c in Planned(self, a, t, clock).changes && c.Removed? && c.x.OfLocal? ==> c.x.ch.name != ch.name
  {
    match a
    case LocalRouteHealthUpdate(name, h, l, k) =>
      var i := IndexOf(ChannelName, t.local, name);
      if ch !in t.local {
        assert t.local[i] in t.local && t.local[i].name == ch.name && t.local[i].envoyPort == ch.envoyPort;
      }
    case InternalProtocolUpdate(info, us) => ItemLoopNoLocals(self, info, us, t.internal);
    case _ =>
  }

  lemma {:induction false} ItemLoopNoLocals(self: string, from: PeerInfo, us: seq<UpdateItem>, routes: seq<InternalRoute>)
    ensures forall c :: c in ItemLoop(self, from, us, routes).changes ==> c.x.OfPeer?
  {
    if |us| > 0 {
      ItemLoopNoLocals(self, from, us[1..], ItemStep(self, from, us[0], routes).routes);
    }
  }

  /** A dispatch that changes the table leaves every ported local channel and every internal route with an egress port
      carrying exactly the allocator's port, with no port lost, duplicated or shared by two keys. */
  lemma PortsAgreeAfter(self: string, a: Action, t: RouteTable, clock: int, pool: Pool, ports: set<int>)
    requires WellFormed(self, t) && LocalsAgree(t.local, pool) && Partitions(pool, ports)
    requires a.LocalRouteCreate? ==> !Ported(a.ch)
    requires Apart(Planned(self, a, t, clock))
    ensures var plan := Planned(self, a, t, clock);
            PortsAgree(WithPorts(plan, pool).next, PoolAfter(plan, pool)) && Partitions(PoolAfter(plan, pool), ports)
  {
    var plan := Planned(self, a, t, clock);
    SurvivorsAgree(self, a, t, clock, pool, ports);
    var l0 := LocalStamp([], Freed(plan, pool), map[]);
    StampLocalsAgree(plan.next.local, l0, ports);
    var l := StampedLocals(plan, pool);
    var e0 := EgressStamp([], l.ports, map[]);
    StampEgressesAgree(plan.next.internal, e0, ports);
    forall ch | ch in l.channels && Ported(ch) ensures PortOf(PoolAfter(plan, pool), ch.name) == ch.envoyPort {
      StampEgressKeeps(plan.next.internal, e0, ch.name);
    }
  }

  // -------------------------------------------------------------------------
  // Change reports carry the committed ports
  // -------------------------------------------------------------------------

  ghost predicate PeerChange(c: RouteChange, k: RouteKey) { c.x.OfPeer? && KeyOf(c.x.ir) == k }

  ghost predicate LocalChange(c: RouteChange, name: string) { c.x.OfLocal? && c.x.ch.name == name }

  lemma {:induction false} OtherPeerChanges(cs: seq<RouteChange>, rs: seq<InternalRoute>, k: RouteKey)
    requires forall c :: c in cs ==> !PeerChange(c, k)
    ensures Find(KeyOf, Fold(KeyOf, PeerDeltas(cs), rs), k) == Find(KeyOf, rs, k)
    decreases cs
  {
    if |cs| > 0 {
      assert cs[0] in cs;
      var ds := PeerDeltas(cs);
      if cs[0].x.OfPeer? {
        assert ds[1..] == PeerDeltas(cs[1..]);
        FindApply(KeyOf, ds[0], rs, k);
        OtherPeerChanges(cs[1..], Apply(KeyOf, ds[0], rs), k);
      } else {
        OtherPeerChanges(cs[1..], rs, k);
      }
    }
  }

  lemma {:induction false} OtherLocalChanges(cs: seq<RouteChange>, chs: seq<DataChannel>, name: string)
    requires forall c :: c in cs ==> !LocalChange(c, name)
    ensures Find(ChannelName, Fold(ChannelName, LocalDeltas(cs), chs), name) == Find(ChannelName, chs, name)
    decreases cs
  {
    if |cs| > 0 {
      assert cs[0] in cs;
      var ds := LocalDeltas(cs);
      if cs[0].x.OfLocal? {
        assert ds[1..] == LocalDeltas(cs[1..]);
        FindApply(ChannelName, ds[0], chs, name);
        OtherLocalChanges(cs[1..], Apply(ChannelName, ds[0], chs), name);
      } else {
        OtherLocalChanges(cs[1..], chs, name);
      }
    }
  }

  /** The last change reported for a key, if not a removal, is the route found under it afterwards. */
  lemma {:induction false} LastPeerChange(cs: seq<RouteChange>, rs: seq<InternalRoute>, i: nat)
    requires i < |cs| && !cs[i].Removed? && cs[i].x.OfPeer? && Sensible(KeyOf, PeerDeltas(cs), rs)
    requires forall j :: i < j < |cs| ==> !PeerChange(cs[j], KeyOf(cs[i].x.ir))
    ensures Find(KeyOf, Fold(KeyOf, PeerDeltas(cs), rs), KeyOf(cs[i].x.ir)) == Some(cs[i].x.ir)
    decreases cs
  {
    var ds := PeerDeltas(cs);
    if i == 0 {
      assert ds[1..] == PeerDeltas(cs[1..]);
      FindApply(KeyOf, ds[0], rs, KeyOf(cs[0].x.ir));
      OtherPeerChanges(cs[1..], Apply(KeyOf, ds[0], rs), KeyOf(cs[0].x.ir));
    } else {
      if cs[0].x.OfPeer? {
        assert ds[1..] == PeerDeltas(cs[1..]);
      }
      LastPeerChange(cs[1..], if cs[0].x.OfPeer? then Apply(KeyOf, ds[0], rs) else rs, i - 1);
    }
  }

  lemma {:induction false} LastLocalChange(cs: seq<RouteChange>, chs: seq<DataChannel>, i: nat)
    requires i < |cs| && !cs[i].Removed? && cs[i].x.OfLocal? && Sensible(ChannelName, LocalDeltas(cs), chs)
    requires forall j :: i < j < |cs| ==> !LocalChange(cs[j], cs[i].x.ch.name)
    ensures Find(ChannelName, Fold(ChannelName, LocalDeltas(cs), chs), cs[i].x.ch.name) == Some(cs[i].x.ch)
    decreases cs
  {
    var ds := LocalDeltas(cs);
    if i == 0 {
      assert ds[1..] == LocalDeltas(cs[1..]);
      FindApply(ChannelName, ds[0], chs, cs[0].x.ch.name);
      OtherLocalChanges(cs[1..], Apply(ChannelName, ds[0], chs), cs[0].x.ch.name);
    } else {
      if cs[0].x.OfLocal? {
        assert ds[1..] == LocalDeltas(cs[1..]);
      }
      LastLocalChange(cs[1..], if cs[0].x.OfLocal? then Apply(ChannelName, ds[0], chs) else chs, i - 1);
    }
  }

  function GrantedChannel(ch: DataChannel, granted: map<string, int>): DataChannel {
    if !Ported(ch) && ch.name in granted then ch.(envoyPort := Some(granted[ch.name])) else ch
  }

  lemma {:induction false} GrantsKept(chs: seq<DataChannel>, s: LocalStamp, name: string)
    requires forall ch :: ch in chs ==> ch.name != name
    ensures name in StampLocals(chs, s).granted <==> name in s.granted
    ensures name in s.granted ==> StampLocals(chs, s).granted[name] == s.granted[name]
    decreases chs
  {
    if |chs| > 0 {
      assert chs[0] in chs;
      assert forall ch :: ch in chs[1..] ==> ch in chs;
      GrantsKept(chs[1..], StampLocal(chs[0], s), name);
    }
  }

  lemma UniqueRest(chs: seq<DataChannel>)
    requires Unique(ChannelName, chs) && |chs| > 0
    ensures Unique(ChannelName, chs[1..]) && forall j :: 0 < j < |chs| ==> ChannelName(chs[0]) != ChannelName(chs[j])
  {
    assert forall j :: 0 <= j < |chs[1..]| ==> chs[1..][j] == chs[j + 1];
  }

  lemma {:induction false} StampLocalElement(chs: seq<DataChannel>, s: LocalStamp, i: nat)
    requires i < |chs| && Unique(ChannelName, chs) && chs[i].name !in s.granted
    ensures var r := StampLocals(chs, s);
            |r.channels| == |s.channels| + |chs| && r.channels[|s.channels| + i] == GrantedChannel(chs[i], r.granted)
    decreases chs
  {
    var s', rest, r := StampLocal(chs[0], s), chs[1..], StampLocals(chs, s);
    StampLocalsShape(chs, s);
    StampLocalsShape(rest, s');
    if i == 0 {
      assert (forall ch :: ch in rest ==> ch.name != chs[0].name) by {
        forall ch | ch in rest ensures ch.name != chs[0].name {
          var j :| 0 <= j < |rest| && rest[j] == ch;
          assert ChannelName(chs[0]) != ChannelName(chs[j + 1]);
        }
      }
      GrantsKept(rest, s', chs[0].name);
      assert r.channels[|s.channels|] == r.channels[..|s'.channels|][|s.channels|] == s'.channels[|s.channels|];
    } else {
      UniqueRest(chs);
      StampLocalElement(rest, s', i - 1);
      assert r.channels[|s.channels| + i] == r.channels[|s'.channels| + (i - 1)];
    }
  }

  lemma {:induction false} StampEgressElement(rs: seq<InternalRoute>, s: EgressStamp, i: nat)
    requires i < |rs|
    ensures var r := StampEgresses(rs, s);
            && |r.routes| == |s.routes| + |rs| && r.routes[..|s.routes|] == s.routes
            && (r.routes[|s.routes| + i] == rs[i] || EgressKeyOf(rs[i]) in r.ports.pool.taken)
    decreases rs
  {
    var s' := StampEgress(rs[0], s);
    var r := StampEgresses(rs, s);
    StampEgressesShape(rs, s);
    StampEgressesShape(rs[1..], s');
    if i == 0 {
      assert r.routes[|s.routes|] == r.routes[..|s'.routes|][|s.routes|] == s'.routes[|s.routes|];
      if EgressKeyOf(rs[0]) in s'.ports.pool.taken {
        StampEgressKeeps(rs[1..], s', EgressKeyOf(rs[0]));
      }
    } else {
      StampEgressElement(rs[1..], s', i - 1);
      assert r.routes[|s.routes| + i] == r.routes[|s'.routes| + (i - 1)];
    }
  }

  lemma EgressStampIs(rs: seq<InternalRoute>, ports: Ports, r: InternalRoute, all: set<int>)
    requires Partitions(ports.pool, all) && r in rs
    ensures var e := StampEgresses(rs, EgressStamp([], ports, map[]));
            (if EgressKeyOf(r) in e.egress then WithPort(r, e.egress[EgressKeyOf(r)]) else r) in e.routes
  {
    var s := EgressStamp([], ports, map[]);
    var e := StampEgresses(rs, s);
    var i :| 0 <= i < |rs| && rs[i] == r;
    StampEgressElement(rs, s, i);
    StampEgressesShape(rs, s);
    StampEgressesAgree(rs, s, all);
    var x := e.routes[i];
    assert x == e.routes[|s.routes| + i] && x in e.routes;
    assert Core(x) == Core(r);
    assert EgressKeyOf(Core(x)) == EgressKeyOf(Core(r));
    if EgressKeyOf(r) in e.egress {
      assert x.ch == Portless(x.ch).(envoyPort := x.ch.envoyPort) && WithPort(r, e.egress[EgressKeyOf(r)]).ch == Portless(r.ch).(envoyPort := Some(e.egress[EgressKeyOf(r)]));
      assert x == Core(x).(ch := x.ch);
    }
  }

  lemma FreedPartitions(plan: PlanResult, pool: Pool, ports: set<int>)
    requires Partitions(pool, ports)
    ensures Partitions(Freed(plan, pool).pool, ports)
  {
    FreeChangesFacts(Ports(pool, []), plan.changes, "", ports);
    HonourFacts(FreeChanges(Ports(pool, []), plan.changes), plan.portOps, "", ports);
  }

  lemma {:induction false} LocalStampPartitions(chs: seq<DataChannel>, s: LocalStamp, ports: set<int>)
    requires Partitions(s.ports.pool, ports)
    ensures Partitions(StampLocals(chs, s).ports.pool, ports)
    decreases chs
  {
    if |chs| > 0 {
      AllocatePartitions(s.ports.pool, chs[0].name, ports);
      LocalStampPartitions(chs[1..], StampLocal(chs[0], s), ports);
    }
  }

  lemma PeerChangeCommitted(plan: PlanResult, t: RouteTable, pool: Pool, ports: set<int>, i: nat)
    requires Reports(plan.changes, t, plan.next) && Sensible(KeyOf, PeerDeltas(plan.changes), t.internal) && Partitions(pool, ports)
    requires i < |plan.changes| && !plan.changes[i].Removed? && plan.changes[i].x.OfPeer?
    requires forall j :: i < j < |plan.changes| ==> !PeerChange(plan.changes[j], KeyOf(plan.changes[i].x.ir))
    ensures WithPorts(plan, pool).changes[i].x.OfPeer?
    ensures WithPorts(plan, pool).changes[i].x.ir in WithPorts(plan, pool).next.internal
  {
    var r := plan.changes[i].x.ir;
    LastPeerChange(plan.changes, t.internal, i);
    FreedPartitions(plan, pool, ports);
    LocalStampPartitions(plan.next.local, LocalStamp([], Freed(plan, pool), map[]), ports);
    EgressStampIs(plan.next.internal, StampedLocals(plan, pool).ports, r, ports);
  }

  lemma LocalChangeCommitted(plan: PlanResult, t: RouteTable, pool: Pool, i: nat)
    requires Reports(plan.changes, t, plan.next) && Sensible(ChannelName, LocalDeltas(plan.changes), t.local)
    requires Unique(ChannelName, plan.next.local)
    requires i < |plan.changes| && !plan.changes[i].Removed? && plan.changes[i].x.OfLocal?
    requires forall j :: i < j < |plan.changes| ==> !LocalChange(plan.changes[j], plan.changes[i].x.ch.name)
    ensures WithPorts(plan, pool).changes[i].x.OfLocal?
    ensures WithPorts(plan, pool).changes[i].x.ch in WithPorts(plan, pool).next.local
  {
    var ch := plan.changes[i].x.ch;
    LastLocalChange(plan.changes, t.local, i);
    var s := LocalStamp([], Freed(plan, pool), map[]);
    var m :| 0 <= m < |plan.next.local| && plan.next.local[m] == ch;
    StampLocalElement(plan.next.local, s, m);
    assert StampedLocals(plan, pool).channels[|s.channels| + m] == GrantedChannel(ch, StampedLocals(plan, pool).granted);
  }

  /** No later change concerns the same route. */
  ghost predicate LastFor(cs: seq<RouteChange>, i: nat)
    requires i < |cs|
  {
    forall j :: i < j < |cs| ==>
      match cs[i].x
      case OfPeer(r) => !PeerChange(cs[j], KeyOf(r))
      case OfLocal(ch) => !LocalChange(cs[j], ch.name)
  }

  /** The last addition or update reported for a route is the route as committed, port included. */
  lemma LastChangeIsCommitted(self: string, a: Action, t: RouteTable, clock: int, pool: Pool, ports: set<int>, i: nat)
    requires WellFormed(self, t) && Partitions(pool, ports)
    requires i < |Planned(self, a, t, clock).changes| && !Planned(self, a, t, clock).changes[i].Removed?
    requires LastFor(Planned(self, a, t, clock).changes, i)
    ensures var plan := WithPorts(Planned(self, a, t, clock), pool);
            match plan.changes[i].x
            case OfPeer(r) => r in plan.next.internal
            case OfLocal(ch) => ch in plan.next.local
  {
    var plan := Planned(self, a, t, clock);
    DeltasAreExact(self, a, t, clock);
    PlanKeepsWellFormed(self, a, t, clock);
    if plan.changes[i].x.OfPeer? {
      PeerChangeCommitted(plan, t, pool, ports, i);
    } else {
      LocalChangeCommitted(plan, t, pool, i);
    }
  }

  // -------------------------------------------------------------------------
  // Whole runs
  // -------------------------------------------------------------------------

  datatype Input = Input(action: Action, clock: int, up: set<string>)

  function RunBus(cfg: NodeConfig, s: BusState, inputs: seq<Input>): BusState
    decreases inputs
  {
    if |inputs| == 0 then s
    else RunBus(cfg, Dispatched(cfg, s, inputs[0].action, inputs[0].clock, inputs[0].up).state, inputs[1..])
  }

  /** The plan of the input, as the policy admits it, keeps local names and removed routes apart. */
  ghost predicate ApartAfter(cfg: NodeConfig, s: BusState, i: Input) {
    var admitted := ApplyInboundPolicy(cfg.policy, i.action, s.table);
    admitted.Some? ==> Apart(Planned(cfg.name, admitted.value, s.table, i.clock))
  }

  /** Local routes arrive without a port, and local names stay apart from those of internal routes being removed. */
  ghost predicate PortSafe(cfg: NodeConfig, s: BusState, inputs: seq<Input>)
    decreases inputs
  {
    |inputs| > 0 ==>
      var i := inputs[0];
      && (i.action.LocalRouteCreate? ==> !Ported(i.action.ch))
      && ApartAfter(cfg, s, i)
      && PortSafe(cfg, Dispatched(cfg, s, i.action, i.clock, i.up).state, inputs[1..])
  }

  /** The node's table and allocator agree, and the pool is whole. */
  ghost predicate PortsInOrder(cfg: NodeConfig, s: BusState, ports: set<int>) {
    && WellFormed(cfg.name, s.table)
    && s.pool.Some? && Partitions(s.pool.value, ports) && PortsAgree(s.table, s.pool.value)
  }

  lemma DispatchKeepsPorts(cfg: NodeConfig, s: BusState, i: Input, ports: set<int>)
    requires PortsInOrder(cfg, s, ports) && ApartAfter(cfg, s, i)
    requires i.action.LocalRouteCreate? ==> !Ported(i.action.ch)
    ensures PortsInOrder(cfg, Dispatched(cfg, s, i.action, i.clock, i.up).state, ports)
  {
    DispatchKeepsWellFormed(cfg, s, i.action, i.clock, i.up);
    var admitted := ApplyInboundPolicy(cfg.policy, i.action, s.table);
    if admitted.Some? {
      PortsAgreeAfter(cfg.name, admitted.value, s.table, i.clock, s.pool.value, ports);
    }
  }

  /** Ports agree with the allocator after every dispatch of a port-safe run. */
  lemma {:induction false} RunKeepsPorts(cfg: NodeConfig, s: BusState, inputs: seq<Input>, ports: set<int>)
    requires PortsInOrder(cfg, s, ports) && PortSafe(cfg, s, inputs)
    ensures PortsInOrder(cfg, RunBus(cfg, s, inputs), ports)
    decreases inputs
  {
    if |inputs| > 0 {
      DispatchKeepsPorts(cfg, s, inputs[0], ports);
      RunKeepsPorts(cfg, Dispatched(cfg, s, inputs[0].action, inputs[0].clock, inputs[0].up).state, inputs[1..], ports);
    }
  }

  lemma FreshNodeInOrder(cfg: NodeConfig, entries: seq<PortEntry>)
    ensures PortsInOrder(cfg, BusState(EmptyTable, Some(Created(entries, [])), map[]), set p | p in Expand(entries))
  {
    CreatedPartitions(entries, []);
  }

  // -------------------------------------------------------------------------
  // Exactly when
  // -------------------------------------------------------------------------

  lemma {:induction false} FreedStaysFreed(p: Ports, cs: seq<RouteChange>, key: string)
    requires key !in p.pool.taken
    ensures key !in FreeChanges(p, cs).pool.taken
    decreases cs
  {
    if |cs| > 0 {
      FreedStaysFreed(FreeChange(p, cs[0]), cs[1..], key);
    }
  }

  lemma {:induction false} TouchedIsFreed(p: Ports, cs: seq<RouteChange>, c: RouteChange, key: string)
    requires c in cs && Touches(c, key)
    ensures key !in FreeChanges(p, cs).pool.taken
    decreases cs
  {
    if c == cs[0] {
      FreedStaysFreed(FreeChange(p, cs[0]), cs[1..], key);
    } else {
      TouchedIsFreed(FreeChange(p, cs[0]), cs[1..], c, key);
    }
  }

  lemma {:induction false} HonourStaysFreed(p: Ports, ops: seq<PortOp>, key: string)
    requires key !in p.pool.taken
    ensures key !in Honour(p, ops).pool.taken
    decreases ops
  {
    if |ops| > 0 {
      HonourStaysFreed(if ops[0].Released? then Ports(Release(p.pool, ops[0].key), p.ops + [ops[0]]) else p, ops[1..], key);
    }
  }

  lemma {:induction false} LocalsStayFreed(chs: seq<DataChannel>, s: LocalStamp, key: string)
    requires key !in s.ports.pool.taken && forall ch :: ch in chs && !Ported(ch) ==> ch.name != key
    ensures key !in StampLocals(chs, s).ports.pool.taken
    decreases chs
  {
    if |chs| > 0 {
      assert chs[0] in chs;
      assert forall ch :: ch in chs[1..] ==> ch in chs;
      LocalsStayFreed(chs[1..], StampLocal(chs[0], s), key);
    }
  }

  lemma {:induction false} EgressStaysFreed(rs: seq<InternalRoute>, s: EgressStamp, key: string)
    requires key !in s.ports.pool.taken && forall r :: r in rs ==> EgressKeyOf(r) != key
    ensures key !in StampEgresses(rs, s).ports.pool.taken
    decreases rs
  {
    if |rs| > 0 {
      assert rs[0] in rs;
      assert forall r :: r in rs[1..] ==> r in rs;
      EgressStaysFreed(rs[1..], StampEgress(rs[0], s), key);
    }
  }

  /** A ported local channel keeps its port in the allocator exactly as long as no internal route of the same name (or
      with that name as egress key) is removed: otherwise its port goes back to the pool while it is still stamped. */
  lemma AgreementExactly(self: string, a: Action, t: RouteTable, clock: int, pool: Pool, ports: set<int>)
    requires WellFormed(self, t) && LocalsAgree(t.local, pool) && Partitions(pool, ports)
    requires a.LocalRouteCreate? ==> !Ported(a.ch)
    requires var next := Planned(self, a, t, clock).next;
             forall ch, r :: ch in next.local && r in next.internal ==> ch.name != EgressKeyOf(r)
    ensures var plan := Planned(self, a, t, clock);
            LocalsAgree(WithPorts(plan, pool).next.local, PoolAfter(plan, pool)) <==> Apart(plan)
  {
    var plan := Planned(self, a, t, clock);
    if Apart(plan) {
      PortsAgreeAfter(self, a, t, clock, pool, ports);
    } else {
      var ch, c :| ch in plan.next.local && Ported(ch) && c in plan.changes && c.x.OfPeer? && Touches(c, ch.name);
      PlanKeepsWellFormed(self, a, t, clock);
      RemovalFreesStampedPort(plan, pool, ch, c);
    }
  }

  /** The removal of a learned route frees the port stamped on a surviving channel of its name. */
  lemma RemovalFreesStampedPort(plan: PlanResult, pool: Pool, ch: DataChannel, c: RouteChange)
    requires Unique(ChannelName, plan.next.local) && ch in plan.next.local && Ported(ch)
    requires c in plan.changes && Touches(c, ch.name)
    requires forall r :: r in plan.next.internal ==> EgressKeyOf(r) != ch.name
    ensures ch in WithPorts(plan, pool).next.local && ch.name !in PoolAfter(plan, pool).taken
  {
    TouchedIsFreed(Ports(pool, []), plan.changes, c, ch.name);
    HonourStaysFreed(FreeChanges(Ports(pool, []), plan.changes), plan.portOps, ch.name);
    forall x | x in plan.next.local && x.name == ch.name ensures x == ch {
      UniqueMember(ChannelName, plan.next.local, x, ch);
    }
    LocalsStayFreed(plan.next.local, LocalStamp([], Freed(plan, pool), map[]), ch.name);
    EgressStaysFreed(plan.next.internal, EgressStamp([], StampedLocals(plan, pool).ports, map[]), ch.name);
    PortedStays(plan, pool, ch);
  }

  lemma PortedStays(plan: PlanResult, pool: Pool, ch: DataChannel)
    requires ch in plan.next.local && Ported(ch) && Unique(ChannelName, plan.next.local)
    ensures ch in StampedLocals(plan, pool).channels
  {
    var s := LocalStamp([], Freed(plan, pool), map[]);
    var m :| 0 <= m < |plan.next.local| && plan.next.local[m] == ch;
    StampLocalElement(plan.next.local, s, m);
    assert StampedLocals(plan, pool).channels[|s.channels| + m] == GrantedChannel(ch, StampedLocals(plan, pool).granted);
  }

  // -------------------------------------------------------------------------
  // A run that loses a port
  // -------------------------------------------------------------------------

  lemma CreatePlan(self: string, ch: DataChannel, t: RouteTable, clock: int, pool: Pool)
    requires forall x :: x in t.local ==> x.name != ch.name
    ensures var plan := Planned(self, LocalRouteCreate(ch), t, clock);
            plan.changed && plan.next == t.(local := t.local + [ch]) && Freed(plan, pool) == Ports(pool, [])
  {
    var cs := Planned(self, LocalRouteCreate(ch), t, clock).changes;
    assert cs == [Added(OfLocal(ch))] && cs[1..] == [];
    assert FreeChanges(Ports(pool, []), cs) == FreeChanges(FreeChange(Ports(pool, []), cs[0]), []);
    assert Honour(Ports(pool, []), []) == Ports(pool, []);
  }

  /** With no other route to stamp, a created channel gets the first free port. */
  lemma CreateStamps(self: string, ch: DataChannel, chs: seq<DataChannel>, peers: seq<PeerRecord>, clock: int, pool: Pool)
    requires !Ported(ch) && ch.name !in pool.taken && |pool.free| > 0 && |chs| <= 1
    requires forall x :: x in chs ==> x.name != ch.name && Ported(x)
    ensures var plan := Planned(self, LocalRouteCreate(ch), RouteTable(chs, peers, []), clock);
            plan.changed && WithPorts(plan, pool).next == RouteTable(chs + [ch.(envoyPort := Some(pool.free[0]))], peers, [])
  {
    var t := RouteTable(chs, peers, []);
    CreatePlan(self, ch, t, clock, pool);
    var s0 := LocalStamp([], Ports(pool, []), map[]);
    if |chs| == 1 {
      assert chs[0] in chs && (chs + [ch])[1..] == [ch];
      var s1 := StampLocal(chs[0], s0);
      assert s1 == s0.(channels := chs);
      assert StampLocals(chs + [ch], s0) == StampLocals([ch], s1);
      assert [ch][1..] == [] && StampLocals([ch], s1) == StampLocal(ch, s1);
    } else {
      assert chs + [ch] == [ch] && [ch][1..] == [];
      assert StampLocals([ch], s0) == StampLocal(ch, s0);
    }
  }

  lemma RunOne(cfg: NodeConfig, s: BusState, i: Input, rest: seq<Input>)
    ensures RunBus(cfg, s, [i] + rest) == RunBus(cfg, Dispatched(cfg, s, i.action, i.clock, i.up).state, rest)
  {
    assert ([i] + rest)[1..] == rest;
  }

  /** Creates a channel, learns a route of the same name from a peer, and hears it withdrawn. */
  function ClashRun(info: PeerInfo, x: DataChannel, u: UpdateItem, c: int): seq<Input> {
    [Input(LocalPeerCreate(info), c, {})] + ([Input(LocalRouteCreate(x), c, {})]
    + ([Input(InternalProtocolUpdate(info, [u]), c, {})] + ([Input(InternalProtocolUpdate(info, [u.(verb := Remove)]), c, {})] + [])))
  }

  lemma LearnStep(cfg: NodeConfig, s: BusState, info: PeerInfo, x: DataChannel, u: UpdateItem, c: int)
    requires cfg.policy.NoPolicy? && s.pool.Some? && s.table.local == [x] && Ported(x) && s.table.internal == []
    requires u.verb.Add? && cfg.name !in u.nodePath
    ensures var s' := Dispatched(cfg, s, InternalProtocolUpdate(info, [u]), c, {}).state;
            && s'.pool.Some? && s'.table.local == [x]
            && |s'.table.internal| == 1 && KeyOf(s'.table.internal[0]) == ItemKey(u)
  {
    var r := Learned(info, u);
    var plan := PlannedUpdate(cfg.name, info, [u], s.table, c);
    assert [u][1..] == [];
    assert ItemLoop(cfg.name, info, [u], []) == Effect([r], [Added(OfPeer(r))], []);
    assert plan.changed && plan.next.local == [x] && plan.next.internal == [r];
    OnePortedStays(plan, s.pool.value, x, r);
  }

  lemma OnePortedStays(plan: PlanResult, pool: Pool, x: DataChannel, r: InternalRoute)
    requires plan.next.local == [x] && Ported(x) && plan.next.internal == [r]
    ensures var t := WithPorts(plan, pool).next; t.local == [x] && |t.internal| == 1 && KeyOf(t.internal[0]) == KeyOf(r)
  {
    StampingKeepsRoutes(plan, Some(pool));
    var s0 := LocalStamp([], Freed(plan, pool), map[]);
    assert [x][1..] == [] && StampLocals([x], s0) == StampLocal(x, s0);
    var t := WithPorts(plan, pool).next;
    assert Core(t.internal[0]) == Core(r) && KeyOf(Core(t.internal[0])) == KeyOf(Core(r));
  }

  lemma ForgetStep(cfg: NodeConfig, s: BusState, info: PeerInfo, x: DataChannel, u: UpdateItem, c: int)
    requires cfg.policy.NoPolicy? && s.pool.Some? && s.table.local == [x] && Ported(x)
    requires |s.table.internal| == 1 && KeyOf(s.table.internal[0]) == ItemKey(u) && u.verb.Remove? && u.route.name == x.name
    ensures var s' := Dispatched(cfg, s, InternalProtocolUpdate(info, [u]), c, {}).state;
            s'.pool.Some? && x in s'.table.local && x.name !in s'.pool.value.taken
  {
    var r := s.table.internal[0];
    var plan := PlannedUpdate(cfg.name, info, [u], s.table, c);
    assert [u][1..] == [] && s.table.internal == [r];
    assert Without(KeyOf, [r], {ItemKey(u)}) == [];
    assert ItemLoop(cfg.name, info, [u], [r]).changes == [Removed(OfPeer(r))] && ItemLoop(cfg.name, info, [u], [r]).routes == [];
    assert plan.changes[0] in plan.changes && Touches(plan.changes[0], x.name);
    RemovalFreesStampedPort(plan, s.pool.value, x, plan.changes[0]);
  }

  /** From a fresh node: the channel is created, a route of its name is learned and withdrawn; the channel still carries
      its port, and the allocator has it free. */
  lemma ClashLosesPort(cfg: NodeConfig, entries: seq<PortEntry>, info: PeerInfo, x: DataChannel, u: UpdateItem, c: int)
    requires cfg.policy.NoPolicy? && !LacksToken(LocalPeerCreate(info)) && !Ported(x)
    requires u.verb.Add? && u.route.name == x.name && cfg.name !in u.nodePath
    requires var pool := Created(entries, []); |pool.free| > 0 && pool.free[0] != 0
    ensures var pool := Created(entries, []);
            var s := RunBus(cfg, BusState(EmptyTable, Some(pool), map[]), ClashRun(info, x, u, c));
            s.pool.Some? && x.(envoyPort := Some(pool.free[0])) in s.table.local && PortOf(s.pool.value, x.name) == None
  {
    var pool := Created(entries, []);
    var x' := x.(envoyPort := Some(pool.free[0]));
    var s0 := BusState(EmptyTable, Some(pool), map[]);
    var s1 := Dispatched(cfg, s0, LocalPeerCreate(info), c, {}).state;
    CreatePeerStep(cfg, s0, info, c);
    var s2 := Dispatched(cfg, s1, LocalRouteCreate(x), c, {}).state;
    CreateStamps(cfg.name, x, [], s1.table.peers, c, pool);
    assert s2.table == RouteTable([x'], s1.table.peers, []) && s2.pool.Some?;
    var s3 := Dispatched(cfg, s2, InternalProtocolUpdate(info, [u]), c, {}).state;
    LearnStep(cfg, s2, info, x', u, c);
    ForgetStep(cfg, s3, info, x', u.(verb := Remove), c);
    ClashUnrolls(cfg, s0, info, x, u, c);
  }

  lemma CreatePeerStep(cfg: NodeConfig, s: BusState, info: PeerInfo, c: int)
    requires cfg.policy.NoPolicy? && !LacksToken(LocalPeerCreate(info)) && s.table == EmptyTable && s.pool.Some?
    ensures var s' := Dispatched(cfg, s, LocalPeerCreate(info), c, {}).state;
            s'.pool == s.pool && s'.table.local == [] && s'.table.internal == []
  {
  }

  lemma ClashUnrolls(cfg: NodeConfig, s: BusState, info: PeerInfo, x: DataChannel, u: UpdateItem, c: int)
    ensures var s1 := Dispatched(cfg, s, LocalPeerCreate(info), c, {}).state;
            var s2 := Dispatched(cfg, s1, LocalRouteCreate(x), c, {}).state;
            var s3 := Dispatched(cfg, s2, InternalProtocolUpdate(info, [u]), c, {}).state;
            RunBus(cfg, s, ClashRun(info, x, u, c)) == Dispatched(cfg, s3, InternalProtocolUpdate(info, [u.(verb := Remove)]), c, {}).state
  {
    var i1, i2 := Input(LocalPeerCreate(info), c, {}), Input(LocalRouteCreate(x), c, {});
    var i3, i4 := Input(InternalProtocolUpdate(info, [u]), c, {}), Input(InternalProtocolUpdate(info, [u.(verb := Remove)]), c, {});
    var s1 := Dispatched(cfg, s, i1.action, c, {}).state;
    var s2 := Dispatched(cfg, s1, i2.action, c, {}).state;
    RunOne(cfg, s, i1, [i2] + ([i3] + ([i4] + [])));
    RunOne(cfg, s1, i2, [i3] + ([i4] + []));
    RunOne(cfg, s2, i3, [i4] + []);
    RunOne(cfg, Dispatched(cfg, s2, i3.action, c, {}).state, i4, []);
  }
}
