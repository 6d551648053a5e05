/** The audit trail of port operations that a plan reports, against what happened to the pool. */
module PortTrail {
  import opened KeyedLists
  import opened RouteTypes
  import opened Rib
  import opened PortAllocator
  import opened BusSpec

  // -------------------------------------------------------------------------
  // What the plan asks for
  // -------------------------------------------------------------------------

  /** A release for each route reported as removed that carries a port, in order, under its bare name. */
  function ReleasesOf(cs: seq<RouteChange>): seq<PortOp> {
    if |cs| == 0 then []
    else
      var ch := match cs[0].x case OfLocal(ch) => ch case OfPeer(r) => r.ch;
      (if cs[0].Removed? && ch.envoyPort.Some? then [Released(ch.name, ch.envoyPort.value)] else []) + ReleasesOf(cs[1..])
  }

  lemma {:induction false} ReleasesAppend(cs: seq<RouteChange>, ds: seq<RouteChange>)
    ensures ReleasesOf(cs + ds) == ReleasesOf(cs) + ReleasesOf(ds)
  {
    if |cs| == 0 {
      assert cs + ds == ds;
    } else {
      assert (cs + ds)[1..] == cs[1..] + ds;
      ReleasesAppend(cs[1..], ds);
    }
  }

  lemma {:induction false} RemovedReleases(rs: seq<InternalRoute>)
    ensures PortReleases(rs) == ReleasesOf(RemovedRoutes(rs))
  {
    if |rs| > 0 {
      RemovedReleases(rs[1..]);
      assert RemovedRoutes(rs)[1..] == RemovedRoutes(rs[1..]);
    }
  }

  lemma {:induction false} UpdatedReleases(rs: seq<InternalRoute>)
    ensures ReleasesOf(UpdatedRoutes(rs)) == []
  {
    if |rs| > 0 {
      UpdatedReleases(rs[1..]);
      assert UpdatedRoutes(rs)[1..] == UpdatedRoutes(rs[1..]);
    }
  }

  lemma StepReleases(self: string, from: PeerInfo, u: UpdateItem, routes: seq<InternalRoute>)
    ensures var e := ItemStep(self, from, u, routes); e.portOps == ReleasesOf(e.changes)
  {
    var e := ItemStep(self, from, u, routes);
    if |e.changes| > 0 {
      assert e.changes == [e.changes[0]] && e.changes[1..] == [];
    }
  }

  lemma {:induction false} LoopReleases(self: string, from: PeerInfo, us: seq<UpdateItem>, routes: seq<InternalRoute>)
    ensures var e := ItemLoop(self, from, us, routes); e.portOps == ReleasesOf(e.changes)
  {
    if |us| > 0 {
      var e := ItemStep(self, from, us[0], routes);
      StepReleases(self, from, us[0], routes);
      LoopReleases(self, from, us[1..], e.routes);
      ReleasesAppend(e.changes, ItemLoop(self, from, us[1..], e.routes).changes);
    }
  }

  /** Every action asks for exactly the releases its report calls for. */
  lemma PlanReleases(self: string, a: Action, t: RouteTable, clock: int)
    ensures var plan := Planned(self, a, t, clock); plan.portOps == ReleasesOf(plan.changes)
  {
    match a
    case LocalPeerDelete(name) => RemovedReleases(Within(Via, t.internal, {name}));
    case InternalProtocolClose(info, code) =>
      RemovedReleases(Within(Via, t.internal, {info.name}));
      UpdatedReleases(StaleAll(Within(Via, t.internal, {info.name})));
    case InternalProtocolUpdate(info, us) => LoopReleases(self, info, us, t.internal);
    case Tick(now) => RemovedReleases(Within(Via, t.internal, Purged(now, t)));
    case LocalRouteCreate(ch) => assert ReleasesOf([Added(OfLocal(ch))]) == [];
    case LocalRouteDelete(name) =>
      var cs := PlanLocalRouteDelete(name, t).changes;
      if |cs| > 0 {
        assert cs == [cs[0]] && cs[1..] == [];
      }
    case LocalRouteHealthUpdate(_, _, _, _) =>
      var cs := Planned(self, a, t, clock).changes;
      if |cs| > 0 {
        assert cs == [cs[0]] && cs[1..] == [];
      }
    case _ =>
  }

  // -------------------------------------------------------------------------
  // What the trail says happened
  // -------------------------------------------------------------------------

  /** Allocations after the reported operations, from those before. */
  function Follow(taken: map<string, int>, ops: seq<PortOp>): map<string, int>
    decreases ops
  {
    if |ops| == 0 then taken
    else
      match ops[0]
      case Allocated(k, port) => Follow(taken[k := port], ops[1..])
      case Released(k, _) => Follow(taken - {k}, ops[1..])
  }

  lemma {:induction false} FollowSnoc(taken: map<string, int>, ops: seq<PortOp>, op: PortOp)
    ensures Follow(taken, ops + [op]) == match op case Allocated(k, port) => Follow(taken, ops)[k := port] case Released(k, _) => Follow(taken, ops) - {k}
    decreases ops
  {
    if |ops| == 0 {
      assert ops + [op] == [op] && [op][1..] == [];
    } else {
      assert (ops + [op])[1..] == ops[1..] + [op];
      FollowSnoc(match ops[0] case Allocated(k, port) => taken[k := port] case Released(k, _) => taken - {k}, ops[1..], op);
    }
  }

  ghost predicate Told(start: map<string, int>, p: Ports) { Follow(start, p.ops) == p.pool.taken }

  lemma FreeKeyTold(start: map<string, int>, p: Ports, key: string)
    requires Told(start, p)
    ensures Told(start, FreeKey(p, key))
  {
    if key in p.pool.taken {
      FollowSnoc(start, p.ops, Released(key, p.pool.taken[key]));
    }
  }

  lemma {:induction false} FreeChangesTold(start: map<string, int>, p: Ports, cs: seq<RouteChange>)
    requires Told(start, p)
    ensures Told(start, FreeChanges(p, cs))
    decreases cs
  {
    if |cs| > 0 {
      match cs[0] {
        case Removed(OfLocal(ch)) => FreeKeyTold(start, p, ch.name);
        case Removed(OfPeer(r)) =>
          FreeKeyTold(start, p, r.ch.name);
          FreeKeyTold(start, FreeKey(p, r.ch.name), EgressKeyOf(r));
        case _ =>
      }
      FreeChangesTold(start, FreeChange(p, cs[0]), cs[1..]);
    }
  }

  lemma {:induction false} HonourTold(start: map<string, int>, p: Ports, ops: seq<PortOp>)
    requires Told(start, p)
    ensures Told(start, Honour(p, ops))
    decreases ops
  {
    if |ops| > 0 {
      if ops[0].Released? {
        FollowSnoc(start, p.ops, ops[0]);
        HonourTold(start, Ports(Release(p.pool, ops[0].key), p.ops + [ops[0]]), ops[1..]);
      } else {
        HonourTold(start, p, ops[1..]);
      }
    }
  }

  lemma {:induction false} LocalsTold(start: map<string, int>, chs: seq<DataChannel>, s: LocalStamp)
    requires Told(start, s.ports)
    ensures Told(start, StampLocals(chs, s).ports)
    decreases chs
  {
    if |chs| > 0 {
      var pool := Allocate(s.ports.pool, chs[0].name);
      if !Ported(chs[0]) && PortOf(pool, chs[0].name).Some? {
        FollowSnoc(start, s.ports.ops, Allocated(chs[0].name, PortOf(pool, chs[0].name).value));
      }
      LocalsTold(start, chs[1..], StampLocal(chs[0], s));
    }
  }

  /** A route asks for the key and does not already carry port `port`. */
  ghost predicate Speaks(rs: seq<InternalRoute>, key: string, port: int) {
    exists r :: r in rs && EgressKeyOf(r) == key && r.ch.envoyPort != Some(port)
  }

  /** The trail is right about every key it knows. */
  ghost predicate ToldSome(start: map<string, int>, p: Ports) {
    forall k :: k in Follow(start, p.ops) ==> k in p.pool.taken && Follow(start, p.ops)[k] == p.pool.taken[k]
  }

  lemma EgressTold(start: map<string, int>, r: InternalRoute, s: EgressStamp)
    requires ToldSome(start, s.ports)
    ensures var s' := StampEgress(r, s);
            && ToldSome(start, s'.ports)
            && (EgressKeyOf(r) in s'.ports.pool.taken || (s'.ports.pool.free == [] && s'.ports.pool.taken == s.ports.pool.taken))
            && (s.ports.pool.free == [] ==> s'.ports.pool == s.ports.pool)
            && (forall k :: k in s.ports.pool.taken ==> k in s'.ports.pool.taken && s'.ports.pool.taken[k] == s.ports.pool.taken[k])
            && (forall k :: k in Follow(start, s'.ports.ops)
                  <==> k in Follow(start, s.ports.ops) || (k in s'.ports.pool.taken && Speaks([r], k, s'.ports.pool.taken[k])))
  {
    var pool := Allocate(s.ports.pool, EgressKeyOf(r));
    assert forall k, port :: Speaks([r], k, port) <==> EgressKeyOf(r) == k && r.ch.envoyPort != Some(port) by {
      assert r in [r];
    }
    if PortOf(pool, EgressKeyOf(r)).Some? {
      FollowSnoc(start, s.ports.ops, Allocated(EgressKeyOf(r), PortOf(pool, EgressKeyOf(r)).value));
    }
  }

  lemma {:induction false} EgressesTold(start: map<string, int>, rs: seq<InternalRoute>, s: EgressStamp)
    requires ToldSome(start, s.ports)
    ensures var s' := StampEgresses(rs, s);
            && ToldSome(start, s'.ports)
            && (s.ports.pool.free == [] ==> s'.ports.pool == s.ports.pool)
            && (forall k :: k in s.ports.pool.taken ==> k in s'.ports.pool.taken && s'.ports.pool.taken[k] == s.ports.pool.taken[k])
            && (forall k :: k in Follow(start, s'.ports.ops)
                  <==> k in Follow(start, s.ports.ops) || (k in s'.ports.pool.taken && Speaks(rs, k, s'.ports.pool.taken[k])))
            && (forall k :: k in s'.ports.pool.taken ==> k in s.ports.pool.taken || exists r :: r in rs && EgressKeyOf(r) == k)
    decreases rs
  {
    if |rs| > 0 {
      var mid, s' := StampEgress(rs[0], s), StampEgresses(rs, s);
      EgressTold(start, rs[0], s);
      EgressesTold(start, rs[1..], mid);
      assert rs[0] in rs && forall r :: r in rs <==> r == rs[0] || r in rs[1..];
      forall k ensures k in Follow(start, s'.ports.ops)
                       <==> k in Follow(start, s.ports.ops) || (k in s'.ports.pool.taken && Speaks(rs, k, s'.ports.pool.taken[k])) {
        if k in s'.ports.pool.taken {
          SpeaksCons(rs, k, s'.ports.pool.taken[k]);
        }
      }
    }
  }

  lemma SpeaksCons(rs: seq<InternalRoute>, key: string, port: int)
    requires |rs| > 0
    ensures Speaks(rs, key, port) <==> Speaks([rs[0]], key, port) || Speaks(rs[1..], key, port)
    ensures Speaks([rs[0]], key, port) <==> EgressKeyOf(rs[0]) == key && rs[0].ch.envoyPort != Some(port)
  {
    assert forall r :: r in rs <==> r in [rs[0]] || r in rs[1..];
    assert rs[0] in [rs[0]];
  }

  /** Some route's key is new here and draws the very port that every route of the key carries already. */
  ghost predicate Silent(plan: PlanResult, pool: Pool) {
    exists k :: k in PoolAfter(plan, pool).taken && k !in StampedLocals(plan, pool).ports.pool.taken
      && !Speaks(plan.next.internal, k, PoolAfter(plan, pool).taken[k])
  }

  /** The trail tells of every release and allocation, with one exception: a learned route that arrives carrying the very
      port it then draws here is allocated without a word. Following the reported operations gives the allocations as they
      are exactly when that does not happen. */
  lemma TrailIsExact(plan: PlanResult, pool: Pool)
    ensures Follow(pool.taken, WithPorts(plan, pool).portOps) == PoolAfter(plan, pool).taken <==> !Silent(plan, pool)
    ensures forall k :: k in Follow(pool.taken, WithPorts(plan, pool).portOps) ==>
              k in PoolAfter(plan, pool).taken && PoolAfter(plan, pool).taken[k] == Follow(pool.taken, WithPorts(plan, pool).portOps)[k]
  {
    var start, l := pool.taken, StampedLocals(plan, pool);
    FreeChangesTold(start, Ports(pool, []), plan.changes);
    HonourTold(start, FreeChanges(Ports(pool, []), plan.changes), plan.portOps);
    LocalsTold(start, plan.next.local, LocalStamp([], Freed(plan, pool), map[]));
    EgressesTold(start, plan.next.internal, EgressStamp([], l.ports, map[]));
  }

  // -------------------------------------------------------------------------
  // The releases it reports
  // -------------------------------------------------------------------------

  /** Nothing has been released but keys that were held, under the ports they had. */
  ghost predicate TrueReleases(start: map<string, int>, p: Ports) {
    && (forall k :: k in p.pool.taken ==> k in start && start[k] == p.pool.taken[k])
    && (forall op :: op in p.ops ==> op.Released? && op.key in start && start[op.key] == op.port)
  }

  lemma FreeKeyTrue(start: map<string, int>, p: Ports, key: string)
    requires TrueReleases(start, p)
    ensures TrueReleases(start, FreeKey(p, key))
  {
  }

  lemma {:induction false} FreeChangesTrue(start: map<string, int>, p: Ports, cs: seq<RouteChange>)
    requires TrueReleases(start, p)
    ensures TrueReleases(start, FreeChanges(p, cs))
    decreases cs
  {
    if |cs| > 0 {
      match cs[0] {
        case Removed(OfLocal(ch)) => FreeKeyTrue(start, p, ch.name);
        case Removed(OfPeer(r)) =>
          FreeKeyTrue(start, p, r.ch.name);
          FreeKeyTrue(start, FreeKey(p, r.ch.name), EgressKeyOf(r));
        case _ =>
      }
      FreeChangesTrue(start, FreeChange(p, cs[0]), cs[1..]);
    }
  }

  lemma {:induction false} HonourReports(p: Ports, ops: seq<PortOp>)
    ensures forall op :: op in Honour(p, ops).ops <==> op in p.ops || (op in ops && op.Released?)
    decreases ops
  {
    if |ops| > 0 {
      assert forall op :: op in ops <==> op == ops[0] || op in ops[1..];
      HonourReports(if ops[0].Released? then Ports(Release(p.pool, ops[0].key), p.ops + [ops[0]]) else p, ops[1..]);
    }
  }

  lemma {:induction false} LocalsReport(chs: seq<DataChannel>, s: LocalStamp)
    ensures forall op: PortOp :: op.Released? ==> (op in StampLocals(chs, s).ports.ops <==> op in s.ports.ops)
    decreases chs
  {
    if |chs| > 0 {
      LocalsReport(chs[1..], StampLocal(chs[0], s));
    }
  }

  lemma {:induction false} EgressesReport(rs: seq<InternalRoute>, s: EgressStamp)
    ensures forall op: PortOp :: op.Released? ==> (op in StampEgresses(rs, s).ports.ops <==> op in s.ports.ops)
    decreases rs
  {
    if |rs| > 0 {
      EgressesReport(rs[1..], StampEgress(rs[0], s));
    }
  }

  /** Every release the plan asks for is reported, and any other that is reported names a key that was held and its port. */
  lemma ReleasesReported(plan: PlanResult, pool: Pool, op: PortOp)
    requires op.Released?
    ensures op in plan.portOps ==> op in WithPorts(plan, pool).portOps
    ensures op in WithPorts(plan, pool).portOps ==> op in plan.portOps || (op.key in pool.taken && pool.taken[op.key] == op.port)
  {
    FreeChangesTrue(pool.taken, Ports(pool, []), plan.changes);
    HonourReports(FreeChanges(Ports(pool, []), plan.changes), plan.portOps);
    LocalsReport(plan.next.local, LocalStamp([], Freed(plan, pool), map[]));
    EgressesReport(plan.next.internal, EgressStamp([], StampedLocals(plan, pool).ports, map[]));
  }

  /** It happens: on a fresh node a route that arrives carrying the first free port gets it, and the trail is empty. */
  lemma PortGoesUntold(self: string, info: PeerInfo, u: UpdateItem, entries: seq<PortEntry>, clock: int)
    requires u.verb.Add? && self !in u.nodePath
    requires var free := Created(entries, []).free; |free| > 0 && u.route.envoyPort == Some(free[0])
    ensures var plan, pool := Planned(self, InternalProtocolUpdate(info, [u]), EmptyTable, clock), Created(entries, []);
            && WithPorts(plan, pool).portOps == []
            && PortOf(PoolAfter(plan, pool), EgressKey(u.route.name, info.name)) == Some(pool.free[0])
  {
    var plan, pool := Planned(self, InternalProtocolUpdate(info, [u]), EmptyTable, clock), Created(entries, []);
    var r := InternalRoute(u.route, info, u.nodePath, u.originNode, false);
    assert [u][1..] == [];
    assert ItemLoop(self, info, [u], []) == Effect([r], [Added(OfPeer(r))], []);
    assert plan.next == RouteTable([], [], [r]) && plan.changes == [Added(OfPeer(r))] && plan.portOps == [];
    assert FreeChanges(Ports(pool, []), plan.changes) == FreeChanges(Ports(pool, []), []);
    assert Freed(plan, pool) == Ports(pool, []) && StampedLocals(plan, pool) == LocalStamp([], Ports(pool, []), map[]);
    var s := EgressStamp([], Ports(pool, []), map[]);
    assert [r][1..] == [] && StampEgresses([r], s) == StampEgresses([], StampEgress(r, s));
    assert StampedEgresses(plan, pool) == StampEgress(r, s);
    assert EgressKeyOf(r) == EgressKey(u.route.name, info.name);
  }

  /** What was removed is reported as planned, port included. */
  lemma RemovalsUnstamped(plan: PlanResult, pool: Pool, i: nat)
    requires i < |plan.changes| && plan.changes[i].Removed?
    ensures |WithPorts(plan, pool).changes| == |plan.changes| && WithPorts(plan, pool).changes[i] == plan.changes[i]
  {
  }
}
