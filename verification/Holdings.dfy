/** What a node holds per route key, up to ports: plans depend on that alone, not on the order of the learned routes. */
module Holdings {
  import opened KeyedLists
  import opened RouteTypes
  import opened Rib
  import opened RibTheorems
  import opened UpdateLoop
  import opened Runs
  import opened PortErasure

  function CoreOpt(r: Option<InternalRoute>): Option<InternalRoute> {
    match r case Some(x) => Some(Core(x)) case None => None
  }

  function CoreAt(rs: seq<InternalRoute>, k: RouteKey): Option<InternalRoute> { CoreOpt(Find(KeyOf, rs, k)) }

  /** The same route, up to its port, under every key. */
  ghost predicate SameHeld(xs: seq<InternalRoute>, ys: seq<InternalRoute>) {
    forall k :: CoreAt(xs, k) == CoreAt(ys, k)
  }

  /** The same peers, channels and held routes, up to ports and to the order of the routes. */
  ghost predicate SameHoldings(t: RouteTable, u: RouteTable) {
    t.peers == u.peers && SameChannels(t.local, u.local) && SameHeld(t.internal, u.internal)
  }

  lemma SameRoutesHeld(xs: seq<InternalRoute>, ys: seq<InternalRoute>)
    requires SameRoutes(xs, ys)
    ensures SameHeld(xs, ys)
  {
    forall k ensures CoreAt(xs, k) == CoreAt(ys, k) {
      SameKeyIndex(xs, ys, k);
      var i := IndexOf(KeyOf, xs, k);
      if i >= 0 {
        assert Core(xs[i]) == Core(ys[i]);
      }
    }
  }

  lemma SameButPortsHeld(t: RouteTable, u: RouteTable)
    requires SameButPorts(t, u)
    ensures SameHoldings(t, u)
  {
    SameRoutesHeld(t.internal, u.internal);
  }

  lemma SameHoldingsTrans(t: RouteTable, u: RouteTable, v: RouteTable)
    requires SameHoldings(t, u) && SameHoldings(u, v)
    ensures SameHoldings(t, v)
  {
    forall k ensures CoreAt(t.internal, k) == CoreAt(v.internal, k) {
      assert CoreAt(t.internal, k) == CoreAt(u.internal, k);
    }
  }

  lemma SameHoldingsSym(t: RouteTable, u: RouteTable)
    requires SameHoldings(t, u)
    ensures SameHoldings(u, t)
  {
    forall k ensures CoreAt(u.internal, k) == CoreAt(t.internal, k) {
      assert CoreAt(t.internal, k) == CoreAt(u.internal, k);
    }
  }

  // -------------------------------------------------------------------------
  // Lookups through the edits of a plan
  // -------------------------------------------------------------------------

  /** Purging by peer, seen through a lookup. */
  lemma HeldWithout(rs: seq<InternalRoute>, names: set<string>, k: RouteKey)
    requires Unique(KeyOf, rs)
    ensures var found := CoreAt(rs, k);
            CoreAt(Without(Via, rs, names), k) == if found.Some? && Via(found.value) in names then None else found
  {
    var rest := Without(Via, rs, names);
    var r := Find(KeyOf, rs, k);
    if r.Some? {
      forall x | x in rest && KeyOf(x) == k ensures x == r.value {
        UniqueMember(KeyOf, rs, x, r.value);
      }
      assert Via(Core(r.value)) == Via(r.value);
    }
  }

  lemma HeldStale(rs: seq<InternalRoute>, name: string, k: RouteKey)
    ensures var found := CoreAt(rs, k);
            CoreAt(StaleVia(rs, name), k) == if found.Some? && Via(found.value) == name then Some(Stale(found.value)) else found
  {
    var marked := StaleVia(rs, name);
    assert forall i :: 0 <= i < |rs| ==> KeyOf(marked[i]) == KeyOf(rs[i]);
    var i := IndexOf(KeyOf, rs, k);
    if i >= 0 {
      IndexOfIs(KeyOf, marked, k, i);
      assert Via(Core(rs[i])) == Via(rs[i]) && Core(Stale(rs[i])) == Stale(Core(rs[i]));
    }
  }

  lemma StaleHeld(xs: seq<InternalRoute>, ys: seq<InternalRoute>, name: string)
    requires SameHeld(xs, ys) && Unique(KeyOf, xs) && HasStale(xs, name)
    ensures HasStale(ys, name)
  {
    var r :| r in xs && Via(r) == name && r.isStale;
    FindMember(KeyOf, xs, r);
    assert CoreAt(xs, KeyOf(r)) == CoreAt(ys, KeyOf(r)) == Some(Core(r));
    var y := Find(KeyOf, ys, KeyOf(r)).value;
    assert Via(Core(y)) == Via(y) && Core(y).isStale == y.isStale;
  }

  lemma PurgedHeld(now: int, t: RouteTable, u: RouteTable)
    requires SameHoldings(t, u) && Unique(KeyOf, t.internal) && Unique(KeyOf, u.internal)
    ensures Purged(now, t) == Purged(now, u)
  {
    forall name ensures HasStale(t.internal, name) == HasStale(u.internal, name) {
      if HasStale(t.internal, name) {
        StaleHeld(t.internal, u.internal, name);
      }
      if HasStale(u.internal, name) {
        SameHoldingsSym(t, u);
        StaleHeld(u.internal, t.internal, name);
      }
    }
    forall name ensures name in Purged(now, t) <==> name in Purged(now, u) {
      PurgedIff(now, t, name);
      PurgedIff(now, u, name);
    }
  }

  /** One update item acts on what is held under its key, and on nothing else. */
  lemma StepHeld(self: string, from: PeerInfo, u: UpdateItem, xs: seq<InternalRoute>, ys: seq<InternalRoute>, k: RouteKey)
    requires CoreAt(xs, k) == CoreAt(ys, k)
    ensures CoreAt(ItemStep(self, from, u, xs).routes, k) == CoreAt(ItemStep(self, from, u, ys).routes, k)
  {
    FindStep(self, from, u, xs, k);
    FindStep(self, from, u, ys, k);
    CoreFields(xs, k);
    CoreFields(ys, k);
  }

  lemma CoreFields(rs: seq<InternalRoute>, k: RouteKey)
    ensures var r, c := Find(KeyOf, rs, k), CoreAt(rs, k);
            r.Some? <==> c.Some?
    ensures var r, c := Find(KeyOf, rs, k), CoreAt(rs, k);
            r.Some? ==> c.value.nodePath == r.value.nodePath && c.value.isStale == r.value.isStale && Via(c.value) == Via(r.value)
  {
  }

  lemma StepChanges(self: string, from: PeerInfo, u: UpdateItem, xs: seq<InternalRoute>, ys: seq<InternalRoute>)
    requires CoreAt(xs, ItemKey(u)) == CoreAt(ys, ItemKey(u))
    ensures |ItemStep(self, from, u, xs).changes| == |ItemStep(self, from, u, ys).changes|
  {
    CoreFields(xs, ItemKey(u));
    CoreFields(ys, ItemKey(u));
  }

  lemma {:induction false} LoopHeld(self: string, from: PeerInfo, us: seq<UpdateItem>, xs: seq<InternalRoute>, ys: seq<InternalRoute>)
    requires SameHeld(xs, ys)
    ensures SameHeld(ItemLoop(self, from, us, xs).routes, ItemLoop(self, from, us, ys).routes)
    ensures |ItemLoop(self, from, us, xs).changes| == |ItemLoop(self, from, us, ys).changes|
    decreases us
  {
    if |us| > 0 {
      var x, y := ItemStep(self, from, us[0], xs), ItemStep(self, from, us[0], ys);
      assert CoreAt(xs, ItemKey(us[0])) == CoreAt(ys, ItemKey(us[0]));
      StepChanges(self, from, us[0], xs, ys);
      forall k ensures CoreAt(x.routes, k) == CoreAt(y.routes, k) {
        assert CoreAt(xs, k) == CoreAt(ys, k);
        StepHeld(self, from, us[0], xs, ys, k);
      }
      LoopHeld(self, from, us[1..], x.routes, y.routes);
    }
  }

  // -------------------------------------------------------------------------
  // Plans
  // -------------------------------------------------------------------------

  ghost predicate PlansAlike(p: PlanResult, q: PlanResult) {
    p.changed == q.changed && SameHoldings(p.next, q.next)
  }

  lemma UpdateHeld(self: string, info: PeerInfo, us: seq<UpdateItem>, t: RouteTable, u: RouteTable, clock: int)
    requires SameHoldings(t, u)
    ensures PlansAlike(PlannedUpdate(self, info, us, t, clock), PlannedUpdate(self, info, us, u, clock))
  {
    LoopHeld(self, info, us, t.internal, u.internal);
    UpdatedRoutesAre(self, info, us, t, clock);
    UpdatedRoutesAre(self, info, us, u, clock);
  }

  lemma PurgeHeld(xs: seq<InternalRoute>, ys: seq<InternalRoute>, names: set<string>)
    requires SameHeld(xs, ys) && Unique(KeyOf, xs) && Unique(KeyOf, ys)
    ensures SameHeld(Without(Via, xs, names), Without(Via, ys, names))
  {
    forall k ensures CoreAt(Without(Via, xs, names), k) == CoreAt(Without(Via, ys, names), k) {
      assert CoreAt(xs, k) == CoreAt(ys, k);
      HeldWithout(xs, names, k);
      HeldWithout(ys, names, k);
    }
  }

  lemma CloseHeld(info: PeerInfo, code: int, t: RouteTable, u: RouteTable)
    requires SameHoldings(t, u) && Unique(KeyOf, t.internal) && Unique(KeyOf, u.internal)
    ensures PlansAlike(PlanInternalProtocolClose(info, code, t), PlanInternalProtocolClose(info, code, u))
  {
    PurgeHeld(t.internal, u.internal, {info.name});
    forall k ensures CoreAt(StaleVia(t.internal, info.name), k) == CoreAt(StaleVia(u.internal, info.name), k) {
      assert CoreAt(t.internal, k) == CoreAt(u.internal, k);
      HeldStale(t.internal, info.name, k);
      HeldStale(u.internal, info.name, k);
    }
  }

  lemma TickHeld(now: int, t: RouteTable, u: RouteTable)
    requires SameHoldings(t, u) && Unique(KeyOf, t.internal) && Unique(KeyOf, u.internal)
    ensures PlansAlike(PlannedTick(now, t), PlannedTick(now, u))
  {
    PurgedHeld(now, t, u);
    PurgeHeld(t.internal, u.internal, Purged(now, t));
  }

  /** Local and session actions leave the learned routes alone and do not look at them. */
  lemma OthersHeld(self: string, a: Action, t: RouteTable, u: RouteTable, clock: int)
    requires SameHoldings(t, u)
    requires !a.LocalPeerDelete? && !a.InternalProtocolClose? && !a.InternalProtocolUpdate? && !a.Tick?
    ensures PlansAlike(Planned(self, a, t, clock), Planned(self, a, u, clock))
  {
    var bare := RouteTable(u.local, u.peers, t.internal);
    PlanIgnoresPorts(self, a, t, bare, clock);
    SameLocalPlan(self, a, u, t.internal, clock);
    SameLocalPlan(self, a, t, t.internal, clock);
  }

  lemma SameLocalPlan(self: string, a: Action, u: RouteTable, rs: seq<InternalRoute>, clock: int)
    requires !a.LocalPeerDelete? && !a.InternalProtocolClose? && !a.InternalProtocolUpdate? && !a.Tick?
    ensures var p, q := Planned(self, a, u, clock), Planned(self, a, u.(internal := rs), clock);
            p.changed == q.changed && p.next == q.next.(internal := u.internal) && q.next.internal == rs
  {
  }

  /** Every action decides alike on tables with the same holdings, and keeps them so. */
  lemma PlanIgnoresOrder(self: string, a: Action, t: RouteTable, u: RouteTable, clock: int)
    requires SameHoldings(t, u) && Unique(KeyOf, t.internal) && Unique(KeyOf, u.internal)
    ensures PlansAlike(Planned(self, a, t, clock), Planned(self, a, u, clock))
  {
    match a
    case LocalPeerDelete(name) => PurgeHeld(t.internal, u.internal, {name});
    case InternalProtocolClose(info, code) => CloseHeld(info, code, t, u);
    case InternalProtocolUpdate(info, us) => UpdateHeld(self, info, us, t, u, clock);
    case Tick(now) => TickHeld(now, t, u);
    case _ => OthersHeld(self, a, t, u, clock);
  }
}
