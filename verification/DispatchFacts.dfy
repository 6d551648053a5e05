/** What a dispatch does to the table and which messages it sends, clause by clause. */
module DispatchFacts {
  import opened KeyedLists
  import opened RouteTypes
  import opened Rib
  import opened RibTheorems
  import opened BusSpec
  import opened PortErasure

  lemma {:induction false} ItemsForMember(cfg: NodeConfig, peer: PeerRecord, cs: seq<RouteChange>, u: UpdateItem)
    ensures u in ItemsFor(cfg, peer, cs) <==> exists c :: c in cs && u in ItemFor(cfg, peer, c)
  {
    if |cs| > 0 {
      ItemsForMember(cfg, peer, cs[1..], u);
      assert forall c :: c in cs <==> c == cs[0] || c in cs[1..];
    }
  }

  lemma {:induction false} InternalItemsMember(cfg: NodeConfig, peer: PeerRecord, rs: seq<InternalRoute>, u: UpdateItem)
    ensures u in InternalItems(cfg, peer, rs) <==> exists r :: r in rs && Syncable(cfg, peer, r) && u == Advertised(cfg, Add, r)
  {
    if |rs| > 0 {
      InternalItemsMember(cfg, peer, rs[1..], u);
      assert forall r :: r in rs <==> r == rs[0] || r in rs[1..];
    }
  }

  lemma {:induction false} FanOutMember(cfg: NodeConfig, peers: seq<PeerRecord>, cs: seq<RouteChange>, up: set<string>, x: Send)
    ensures x in FanOut(cfg, peers, cs, up) <==>
            exists p :: p in peers && PeerName(p) in up && ItemsFor(cfg, p, cs) != [] && x == SendUpdate(PeerName(p), ItemsFor(cfg, p, cs))
  {
    if |peers| > 0 {
      FanOutMember(cfg, peers[1..], cs, up, x);
      assert forall p :: p in peers <==> p == peers[0] || p in peers[1..];
    }
  }

  lemma {:induction false} KeepalivesOnly(names: seq<string>, up: set<string>, x: Send)
    requires x in KeepalivesTo(names, up)
    ensures x.SendKeepalive?
  {
    if |names| > 0 && x !in (if names[0] in up then [SendKeepalive(names[0])] else []) {
      KeepalivesOnly(names[1..], up, x);
    }
  }

  lemma NoticesSent(cfg: NodeConfig, a: Action, plan: PlanResult, up: set<string>, x: Send)
    requires x in Notified(cfg, a, plan, up) && x.SendUpdate?
    ensures exists p :: p in plan.next.peers && p.status == Connected && x.to == PeerName(p)
              && x.items == if a.InternalProtocolConnected? then FullSync(cfg, p, plan.next) else ItemsFor(cfg, p, plan.changes)
  {
    if !a.InternalProtocolConnected? {
      FanOutMember(cfg, ConnectedPeers(plan.next), plan.changes, up, x);
    }
  }

  lemma KeepaliveSendsOnly(a: Action, t: RouteTable, sent: map<string, int>, up: set<string>, x: Send)
    requires x in KeepaliveSends(a, t, sent, up)
    ensures x.SendKeepalive?
  {
    KeepalivesOnly(Needing(t.peers, sent, a.now), up, x);
  }

  lemma CarriedSends(cfg: NodeConfig, s: BusState, a: Action, ribPlan: PlanResult, up: set<string>, x: Send)
    requires x in Carried(cfg, s, a, ribPlan, up).sends && x.SendUpdate?
    ensures x in Notified(cfg, a, PlanPorts(ribPlan, s.pool), up)
  {
    var next := PlanPorts(ribPlan, s.pool).next;
    if x in KeepaliveSends(a, next, s.sent, up) {
      KeepaliveSendsOnly(a, next, s.sent, up, x);
    }
  }

  /** The messages a dispatch sends are the full sync of a peer that just connected, or one delta message per peer. */
  lemma UpdatesSent(cfg: NodeConfig, s: BusState, a: Action, clock: int, up: set<string>, x: Send)
    requires x in Dispatched(cfg, s, a, clock, up).sends && x.SendUpdate?
    ensures ApplyInboundPolicy(cfg.policy, a, s.table).Some? && !LacksToken(a)
    ensures var ribPlan := Planned(cfg.name, ApplyInboundPolicy(cfg.policy, a, s.table).value, s.table, clock);
            var plan := PlanPorts(ribPlan, s.pool);
            && ribPlan.changed
            && (exists p :: p in plan.next.peers && p.status == Connected && x.to == PeerName(p)
                  && x.items == if a.InternalProtocolConnected? then FullSync(cfg, p, plan.next) else ItemsFor(cfg, p, plan.changes))
  {
    var ribPlan := Planned(cfg.name, ApplyInboundPolicy(cfg.policy, a, s.table).value, s.table, clock);
    if ribPlan.changed {
      CarriedSends(cfg, s, a, ribPlan, up, x);
      NoticesSent(cfg, a, PlanPorts(ribPlan, s.pool), up, x);
    } else {
      KeepaliveSendsOnly(a, s.table, s.sent, up, x);
    }
  }

  /** Without a policy, updates go to connected peers of the planned table. */
  lemma SentToPeer(cfg: NodeConfig, s: BusState, a: Action, clock: int, up: set<string>, x: Send)
    requires cfg.policy.NoPolicy? && x in Dispatched(cfg, s, a, clock, up).sends && x.SendUpdate?
    ensures exists p :: p in Planned(cfg.name, a, s.table, clock).next.peers && p.status == Connected && PeerName(p) == x.to
  {
    UpdatesSent(cfg, s, a, clock, up, x);
    StampingKeepsRoutes(Planned(cfg.name, a, s.table, clock), s.pool);
  }

  lemma CarriedTable(cfg: NodeConfig, s: BusState, a: Action, ribPlan: PlanResult, up: set<string>)
    ensures SameButPorts(Carried(cfg, s, a, ribPlan, up).state.table, ribPlan.next) && Carried(cfg, s, a, ribPlan, up).result.Success?
  {
    StampingKeepsRoutes(ribPlan, s.pool);
  }

  lemma SameAsItself(t: RouteTable)
    ensures SameButPorts(t, t)
  {
  }

  /** Committing stamps ports on the planned table and nothing else. */
  lemma TableAfter(cfg: NodeConfig, s: BusState, a: Action, clock: int, up: set<string>)
    ensures var o, admitted := Dispatched(cfg, s, a, clock, up), ApplyInboundPolicy(cfg.policy, a, s.table);
            if LacksToken(a) || admitted.None? then o.state == s && !o.result.Success?
            else
              var plan := Planned(cfg.name, admitted.value, s.table, clock);
              && SameButPorts(o.state.table, plan.next)
              && (o.result.Success? <==> plan.changed)
              && (!o.result.Success? ==> o.state.table == s.table)
  {
    var admitted := ApplyInboundPolicy(cfg.policy, a, s.table);
    if admitted.Some? {
      var plan := Planned(cfg.name, admitted.value, s.table, clock);
      UnchangedPlan(cfg.name, admitted.value, s.table, clock);
      SameAsItself(s.table);
      CarriedTable(cfg, s, a, plan, up);
    }
  }

  lemma WellFormedUpToPorts(self: string, t: RouteTable, u: RouteTable)
    requires SameButPorts(t, u) && WellFormed(self, u)
    ensures WellFormed(self, t)
  {
    forall i | 0 <= i < |t.local| ensures ChannelName(t.local[i]) == ChannelName(u.local[i]) {
      assert ChannelName(Portless(t.local[i])) == ChannelName(Portless(u.local[i]));
    }
    forall i | 0 <= i < |t.internal|
      ensures KeyOf(t.internal[i]) == KeyOf(u.internal[i]) && t.internal[i].nodePath == u.internal[i].nodePath && u.internal[i] in u.internal
    {
      assert KeyOf(Core(t.internal[i])) == KeyOf(Core(u.internal[i])) && Core(t.internal[i]).nodePath == Core(u.internal[i]).nodePath;
    }
  }

  /** Well-formedness is kept by every dispatch, under any policy, port stamping included. */
  lemma DispatchKeepsWellFormed(cfg: NodeConfig, s: BusState, a: Action, clock: int, up: set<string>)
    requires WellFormed(cfg.name, s.table)
    ensures WellFormed(cfg.name, Dispatched(cfg, s, a, clock, up).state.table)
  {
    TableAfter(cfg, s, a, clock, up);
    var admitted := ApplyInboundPolicy(cfg.policy, a, s.table);
    if !LacksToken(a) && admitted.Some? {
      PlanKeepsWellFormed(cfg.name, admitted.value, s.table, clock);
      WellFormedUpToPorts(cfg.name, Dispatched(cfg, s, a, clock, up).state.table, Planned(cfg.name, admitted.value, s.table, clock).next);
    }
  }

  /** Each internal route after a dispatch is a planned one up to its port. */
  lemma PlannedTwin(t: RouteTable, u: RouteTable, r: InternalRoute)
    requires SameButPorts(t, u) && r in t.internal
    ensures exists q :: q in u.internal && Core(q) == Core(r)
  {
    var i :| 0 <= i < |t.internal| && t.internal[i] == r;
    assert u.internal[i] in u.internal;
  }

  /** `u` is what node `self` tells `w` about change `c`. */
  predicate TellsOf(self: string, w: string, c: RouteChange, u: UpdateItem) {
    && u.verb == (if c.Removed? then Remove else Add)
    && match c.x
       case OfLocal(ch) => ItemKey(u) == RouteKey(ch.name, self) && u.nodePath == [self]
       case OfPeer(r) => Via(r) != w && w !in r.nodePath && ItemKey(u) == KeyOf(r) && u.nodePath == [self] + r.nodePath
  }

  lemma TwinTells(self: string, w: string, c: RouteChange, d: RouteChange, u: UpdateItem)
    requires SameChange(c, d)
    ensures TellsOf(self, w, c, u) <==> TellsOf(self, w, d, u)
  {
    match c.x
    case OfLocal(ch) => assert Portless(ch).name == Portless(d.x.ch).name;
    case OfPeer(r) =>
      assert Core(r) == Core(d.x.ir);
      assert KeyOf(Core(r)) == KeyOf(Core(d.x.ir)) && Via(Core(r)) == Via(Core(d.x.ir)) && Core(r).nodePath == Core(d.x.ir).nodePath;
  }

  lemma ItemTells(cfg: NodeConfig, p: PeerRecord, c: RouteChange, u: UpdateItem)
    requires cfg.policy.NoPolicy? && u in ItemFor(cfg, p, c)
    ensures TellsOf(cfg.name, PeerName(p), c, u)
  {
  }

  /** Every update sent, other than a full sync, goes to a connected peer and tells of changes. */
  lemma SentTells(cfg: NodeConfig, s: BusState, a: Action, clock: int, up: set<string>, x: Send, u: UpdateItem)
    requires cfg.policy.NoPolicy? && !a.InternalProtocolConnected?
    requires x in Dispatched(cfg, s, a, clock, up).sends && x.SendUpdate? && u in x.items
    ensures Planned(cfg.name, a, s.table, clock).changed && !LacksToken(a)
    ensures exists p :: p in Planned(cfg.name, a, s.table, clock).next.peers && p.status == Connected && PeerName(p) == x.to
    ensures exists c :: c in Planned(cfg.name, a, s.table, clock).changes && TellsOf(cfg.name, x.to, c, u)
  {
    var ribPlan := Planned(cfg.name, a, s.table, clock);
    var plan := PlanPorts(ribPlan, s.pool);
    UpdatesSent(cfg, s, a, clock, up, x);
    StampingKeepsRoutes(ribPlan, s.pool);
    var p :| p in plan.next.peers && p.status == Connected && x.to == PeerName(p) && x.items == ItemsFor(cfg, p, plan.changes);
    ItemsForMember(cfg, p, plan.changes, u);
    var d :| d in plan.changes && u in ItemFor(cfg, p, d);
    ItemTells(cfg, p, d, u);
    var i :| 0 <= i < |plan.changes| && plan.changes[i] == d;
    assert ribPlan.changes[i] in ribPlan.changes && SameChange(d, ribPlan.changes[i]);
    TwinTells(cfg.name, x.to, d, ribPlan.changes[i], u);
  }

  /** Every change is told to every connected peer the transport reaches, unless its route came from or passed that peer. */
  lemma ChangeTold(cfg: NodeConfig, s: BusState, a: Action, clock: int, up: set<string>, c: RouteChange, p: PeerRecord)
    requires cfg.policy.NoPolicy? && !a.InternalProtocolConnected? && !LacksToken(a)
    requires Planned(cfg.name, a, s.table, clock).changed && c in Planned(cfg.name, a, s.table, clock).changes
    requires p in Planned(cfg.name, a, s.table, clock).next.peers && p.status == Connected && PeerName(p) in up
    requires c.x.OfPeer? ==> MayPass(c.x.ir, p)
    ensures exists x, u :: x in Dispatched(cfg, s, a, clock, up).sends && x.SendUpdate? && x.to == PeerName(p) && u in x.items
              && TellsOf(cfg.name, PeerName(p), c, u)
  {
    var ribPlan := Planned(cfg.name, a, s.table, clock);
    var plan := PlanPorts(ribPlan, s.pool);
    StampingKeepsRoutes(ribPlan, s.pool);
    var i :| 0 <= i < |ribPlan.changes| && ribPlan.changes[i] == c;
    var d := plan.changes[i];
    assert SameChange(d, c);
    assert ItemFor(cfg, p, d) != [] by {
      if c.x.OfPeer? {
        assert Core(d.x.ir) == Core(c.x.ir);
        assert Via(Core(d.x.ir)) == Via(Core(c.x.ir)) && Core(d.x.ir).nodePath == Core(c.x.ir).nodePath;
      }
    }
    var u := ItemFor(cfg, p, d)[0];
    ItemTells(cfg, p, d, u);
    TwinTells(cfg.name, PeerName(p), d, c, u);
    ItemsForMember(cfg, p, plan.changes, u);
    var x := SendUpdate(PeerName(p), ItemsFor(cfg, p, plan.changes));
    FanOutMember(cfg, ConnectedPeers(plan.next), plan.changes, up, x);
    assert x in Notified(cfg, a, plan, up);
    assert x in Dispatched(cfg, s, a, clock, up).sends && u in x.items;
  }
}
