/** Where the routes of a table come from, and what takes them away. */
module RouteHistory {
  import opened KeyedLists
  import opened RouteTypes
  import opened Rib
  import opened RibTheorems
  import opened Runs
  import opened UpdateLoop

  // -------------------------------------------------------------------------
  // One update
  // -------------------------------------------------------------------------

  /** `r` is what advertisement `u` of `info` brings to node `self`: channel, sender, path and origin as received, fresh,
      and not a loop. */
  predicate Brought(r: InternalRoute, self: string, info: PeerInfo, u: UpdateItem) {
    && u.verb == Add && self !in u.nodePath
    && r.ch == u.route && r.peer == info && r.nodePath == u.nodePath && r.originNode == u.originNode && !r.isStale
  }

  predicate BroughtBy(r: InternalRoute, self: string, info: PeerInfo, us: seq<UpdateItem>) {
    exists u :: u in us && Brought(r, self, info, u)
  }

  /** Every route after an update was there before and has not been withdrawn, or comes from an item of the message. */
  lemma {:induction false} LoopBrings(self: string, info: PeerInfo, us: seq<UpdateItem>, routes: seq<InternalRoute>, r: InternalRoute)
    requires r in ItemLoop(self, info, us, routes).routes
    ensures (r in routes && !Withdraws(us, KeyOf(r))) || BroughtBy(r, self, info, us)
  {
    if |us| > 0 {
      var u, rest, mid := us[0], us[1..], ItemStep(self, info, us[0], routes).routes;
      assert forall v :: v in us <==> v == u || v in rest;
      LoopBrings(self, info, rest, mid, r);
      if r in mid && !BroughtBy(r, self, info, rest) {
        StepBrings(self, info, u, routes, r);
      }
    }
  }

  lemma StepBrings(self: string, info: PeerInfo, u: UpdateItem, routes: seq<InternalRoute>, r: InternalRoute)
    requires r in ItemStep(self, info, u, routes).routes
    ensures (r in routes && !(u.verb.Remove? && ItemKey(u) == KeyOf(r))) || Brought(r, self, info, u)
  {
  }

  /** The offers the update loop weighs are exactly the routes brought for the key. */
  lemma {:induction false} OffersAreBrought(self: string, info: PeerInfo, us: seq<UpdateItem>, k: RouteKey, r: InternalRoute)
    ensures r in Offers(self, info, us, k) <==> KeyOf(r) == k && BroughtBy(r, self, info, us)
  {
    if |us| > 0 {
      assert forall v :: v in us <==> v == us[0] || v in us[1..];
      OffersAreBrought(self, info, us[1..], k, r);
      var u := us[0];
      if Brought(r, self, info, u) {
        assert r == InternalRoute(u.route, info, u.nodePath, u.originNode, false);
      }
    }
  }

  lemma UpdateBrings(self: string, info: PeerInfo, us: seq<UpdateItem>, t: RouteTable, clock: int, r: InternalRoute)
    requires r in Planned(self, InternalProtocolUpdate(info, us), t, clock).next.internal
    ensures (r in t.internal && !Withdraws(us, KeyOf(r))) || BroughtBy(r, self, info, us)
  {
    UpdatedRoutesAre(self, info, us, t, clock);
    LoopBrings(self, info, us, t.internal, r);
  }

  /** What is offered for a key not withdrawn afterwards leaves a route that is no longer, and a fresh one. */
  lemma OfferLeavesRoute(self: string, info: PeerInfo, us: seq<UpdateItem>, t: RouteTable, clock: int, u: UpdateItem)
    requires u in us && u.verb == Add && self !in u.nodePath && !Withdraws(us, ItemKey(u))
    ensures var found := Find(KeyOf, Planned(self, InternalProtocolUpdate(info, us), t, clock).next.internal, ItemKey(u));
            found.Some? && !found.value.isStale && |found.value.nodePath| <= |u.nodePath|
  {
    var k := ItemKey(u);
    var existing := Find(KeyOf, t.internal, k);
    var found := Find(KeyOf, ItemLoop(self, info, us, t.internal).routes, k);
    UpdatedRoutesAre(self, info, us, t, clock);
    LoopSettles(self, info, us, t.internal, k);
    OfferCompetes(self, info, us, existing, u);
    CandidatesAreFresh(self, info, us, k, existing);
    ShortestBeats(Candidates(self, info, us, k, existing), found.value, InternalRoute(u.route, info, u.nodePath, u.originNode, false));
  }

  lemma ShortestBeats(cs: seq<InternalRoute>, r: InternalRoute, q: InternalRoute)
    requires FirstShortest(r, cs) && q in cs
    ensures r in cs && |r.nodePath| <= |q.nodePath|
  {
    var i :| FirstShortestAt(i, r, cs);
    var j :| 0 <= j < |cs| && cs[j] == q;
  }

  lemma OfferCompetes(self: string, info: PeerInfo, us: seq<UpdateItem>, existing: Option<InternalRoute>, u: UpdateItem)
    requires u in us && u.verb == Add && self !in u.nodePath && !Withdraws(us, ItemKey(u))
    ensures InternalRoute(u.route, info, u.nodePath, u.originNode, false) in Candidates(self, info, us, ItemKey(u), existing)
  {
    var offer := InternalRoute(u.route, info, u.nodePath, u.originNode, false);
    assert Brought(offer, self, info, u);
    OffersAreBrought(self, info, us, ItemKey(u), offer);
  }

  lemma CandidatesAreFresh(self: string, info: PeerInfo, us: seq<UpdateItem>, k: RouteKey, existing: Option<InternalRoute>)
    ensures forall r :: r in Candidates(self, info, us, k, existing) ==> !r.isStale
  {
    OffersAreFresh(self, info, AfterWithdrawal(us, k), k);
  }

  // -------------------------------------------------------------------------
  // Every other action
  // -------------------------------------------------------------------------

  ghost predicate Knows(t: RouteTable, name: string) {
    exists p :: p in t.peers && PeerName(p) == name
  }

  /** Purged by a tick: the hold time has run out in a session that is up, or that is closed with a stale route left. */
  ghost predicate TimesOut(t: RouteTable, name: string, now: int) {
    exists p :: p in t.peers && PeerName(p) == name && p.holdTime > 0 && p.lastReceived > 0 && now > p.lastReceived + p.holdTime
      && (p.status == Connected || (p.status == Closed && exists r :: r in t.internal && Via(r) == name && r.isStale))
  }

  /** The action takes the routes learned from `name` away. */
  ghost predicate DropsVia(a: Action, t: RouteTable, name: string) {
    match a
    case LocalPeerDelete(gone) => gone == name && Knows(t, name)
    case InternalProtocolClose(info, code) => info.name == name && code != 3 && Knows(t, name)
    case Tick(now) => TimesOut(t, name, now)
    case _ => false
  }

  /** The action marks them stale: a transport failure. */
  ghost predicate MarksVia(a: Action, t: RouteTable, name: string) {
    a.InternalProtocolClose? && a.info.name == name && a.code == 3 && Knows(t, name)
  }

  function Marked(r: InternalRoute, mark: bool): InternalRoute { if mark then r.(isStale := true) else r }

  lemma KnownPeer(t: RouteTable, name: string)
    ensures Knows(t, name) <==> IndexOf(PeerName, t.peers, name) >= 0
  {
  }

  lemma TimesOutIsPurged(t: RouteTable, name: string, now: int)
    ensures TimesOut(t, name, now) <==> name in Purged(now, t)
  {
    PurgedIff(now, t, name);
    if TimesOut(t, name, now) {
      var p :| p in t.peers && PeerName(p) == name && HoldElapsed(p, now)
        && (p.status == Connected || (p.status == Closed && exists r :: r in t.internal && Via(r) == name && r.isStale));
      var i :| 0 <= i < |t.peers| && t.peers[i] == p;
      assert HasStale(t.internal, name) || p.status == Connected;
    }
  }

  lemma CloseLeaves(info: PeerInfo, code: int, t: RouteTable, r: InternalRoute)
    ensures var a := InternalProtocolClose(info, code);
            r in PlanInternalProtocolClose(info, code, t).next.internal
            <==> exists q :: q in t.internal && !DropsVia(a, t, Via(q)) && r == Marked(q, MarksVia(a, t, Via(q)))
  {
    var a := InternalProtocolClose(info, code);
    var next := PlanInternalProtocolClose(info, code, t).next;
    KnownPeer(t, info.name);
    if Knows(t, info.name) && code == TRANSPORT_ERROR {
      if r in next.internal {
        var i :| 0 <= i < |t.internal| && next.internal[i] == r;
        assert t.internal[i] in t.internal && r == Marked(t.internal[i], MarksVia(a, t, Via(t.internal[i])));
      }
      if q :| q in t.internal && r == Marked(q, MarksVia(a, t, Via(q))) {
        var i :| 0 <= i < |t.internal| && t.internal[i] == q;
        assert next.internal[i] == r;
      }
    } else if r in t.internal {
      assert Marked(r, false) == r;
    }
  }

  lemma DeleteLeaves(name: string, t: RouteTable, r: InternalRoute)
    ensures var next := PlanLocalPeerDelete(name, t).next;
            r in next.internal <==> exists q :: q in t.internal && !DropsVia(LocalPeerDelete(name), t, Via(q)) && r == Marked(q, false)
  {
    assert Marked(r, false) == r;
    if !Knows(t, name) {
      WithoutNone(PeerName, t.peers, {name});
    }
  }

  /** An action other than an update leaves exactly the routes it does not drop, marked stale where it says so. */
  lemma OthersLeave(self: string, a: Action, t: RouteTable, clock: int, r: InternalRoute)
    requires !a.InternalProtocolUpdate?
    ensures r in Planned(self, a, t, clock).next.internal
            <==> exists q :: q in t.internal && !DropsVia(a, t, Via(q)) && r == Marked(q, MarksVia(a, t, Via(q)))
  {
    assert Marked(r, false) == r;
    match a
    case InternalProtocolClose(info, code) => CloseLeaves(info, code, t, r);
    case LocalPeerDelete(name) => DeleteLeaves(name, t, r);
    case Tick(now) =>
      TickTable(now, t);
      TimesOutIsPurged(t, Via(r), now);
    case _ =>
  }

  /** When an action counts as changing the table, and so is journaled and told. */
  ghost predicate ChangesSomething(self: string, a: Action, t: RouteTable) {
    match a
    case LocalPeerCreate(info) => !Knows(t, info.name)
    case LocalPeerUpdate(info) => Knows(t, info.name)
    case LocalPeerDelete(name) => Knows(t, name)
    case LocalRouteCreate(ch) => Find(ChannelName, t.local, ch.name).None?
    case LocalRouteDelete(name) => Find(ChannelName, t.local, name).Some?
    case LocalRouteHealthUpdate(name, health, latency, checked) =>
      var found := Find(ChannelName, t.local, name);
      found.Some? && !(found.value.healthStatus == Some(health) && found.value.responseTimeMs == latency && found.value.lastChecked == Some(checked))
    case InternalProtocolOpen(info, _) => Knows(t, info.name)
    case InternalProtocolConnected(info) => Knows(t, info.name)
    case InternalProtocolClose(info, _) => Knows(t, info.name)
    case InternalProtocolKeepalive(info) => Knows(t, info.name)
    case InternalProtocolUpdate(info, us) => Knows(t, info.name) || ItemLoop(self, info, us, t.internal).changes != []
    case Tick(now) => exists name :: TimesOut(t, name, now)
  }

  lemma TickChanges(t: RouteTable, now: int)
    ensures PlannedTick(now, t).changed <==> exists name :: TimesOut(t, name, now)
  {
    forall name ensures TimesOut(t, name, now) <==> name in Purged(now, t) {
      TimesOutIsPurged(t, name, now);
    }
  }

  lemma ChangesWhen(self: string, a: Action, t: RouteTable, clock: int)
    ensures Planned(self, a, t, clock).changed <==> ChangesSomething(self, a, t)
  {
    match a
    case Tick(now) => TickChanges(t, now);
    case LocalPeerDelete(name) =>
      if !Knows(t, name) {
        WithoutNone(PeerName, t.peers, {name});
      }
    case LocalPeerCreate(info) => KnownPeer(t, info.name);
    case LocalPeerUpdate(info) => KnownPeer(t, info.name);
    case LocalRouteCreate(_) =>
    case LocalRouteDelete(_) =>
    case LocalRouteHealthUpdate(_, _, _, _) =>
    case _ => KnownPeer(t, a.info.name);
  }

  // -------------------------------------------------------------------------
  // Any run
  // -------------------------------------------------------------------------

  /** The same route, stale or not. */
  predicate SameButStale(r: InternalRoute, q: InternalRoute) { r.(isStale := q.isStale) == q }

  /** An update that withdraws the key of `r`. */
  predicate Recalls(a: Action, r: InternalRoute) { a.InternalProtocolUpdate? && Withdraws(a.items, KeyOf(r)) }

  predicate Fails(a: Action, r: InternalRoute) { a.InternalProtocolClose? && a.info.name == Via(r) && a.code == 3 }

  /** From place `n` on nothing withdraws the key of `r`, and it is stale only if it was then, or its peer's transport has
      failed since. */
  ghost predicate Lasts(acts: seq<Timed>, n: int, r: InternalRoute, stale: bool) {
    && (forall j :: 0 <= n <= j < |acts| ==> !Recalls(acts[j].action, r))
    && (r.isStale ==> stale || exists j :: 0 <= n <= j < |acts| && Fails(acts[j].action, r))
  }

  /** `r` was brought by the update at place `i`, and nothing has withdrawn it since. */
  ghost predicate BroughtAt(acts: seq<Timed>, i: int, self: string, r: InternalRoute) {
    && 0 <= i < |acts| && acts[i].action.InternalProtocolUpdate?
    && BroughtBy(r.(isStale := false), self, acts[i].action.info, acts[i].action.items)
    && Lasts(acts, i + 1, r, false)
  }

  /** `r` was there at the start, and nothing has withdrawn it since. */
  ghost predicate ThereBefore(acts: seq<Timed>, t: RouteTable, r: InternalRoute) {
    exists q :: q in t.internal && SameButStale(r, q) && Lasts(acts, 0, r, q.isStale)
  }

  lemma LastsSnoc(acts: seq<Timed>, x: Timed, n: int, q: InternalRoute, stale: bool, r: InternalRoute)
    requires 0 <= n <= |acts| && Lasts(acts, n, q, stale) && SameButStale(r, q)
    requires !Recalls(x.action, r) && (r.isStale ==> q.isStale || Fails(x.action, r))
    ensures Lasts(acts + [x], n, r, stale)
  {
    var more := acts + [x];
    assert more[|acts|] == x && KeyOf(r) == KeyOf(q) && Via(r) == Via(q);
    forall j | n <= j < |more| ensures !Recalls(more[j].action, r) {
      if j < |acts| {
        assert more[j] == acts[j] && !Recalls(acts[j].action, q);
      }
    }
    if r.isStale && !stale && q.isStale {
      var j :| n <= j < |acts| && Fails(acts[j].action, q);
      assert more[j] == acts[j] && Fails(more[j].action, r);
    }
  }

  /** One more action: the route was held before it and has not been withdrawn by it, or it brought the route. */
  lemma StepHistory(self: string, x: Timed, t: RouteTable, r: InternalRoute)
    requires r in Planned(self, x.action, t, x.clock).next.internal
    ensures || (x.action.InternalProtocolUpdate? && BroughtBy(r, self, x.action.info, x.action.items))
            || exists q :: q in t.internal && SameButStale(r, q) && !Recalls(x.action, r) && (r.isStale ==> q.isStale || Fails(x.action, r))
  {
    if x.action.InternalProtocolUpdate? {
      UpdateBrings(self, x.action.info, x.action.items, t, x.clock, r);
    } else {
      OthersLeave(self, x.action, t, x.clock, r);
      var q :| q in t.internal && !DropsVia(x.action, t, Via(q)) && r == Marked(q, MarksVia(x.action, t, Via(q)));
      assert SameButStale(r, q);
    }
  }

  lemma HistorySnoc(self: string, acts: seq<Timed>, x: Timed, t: RouteTable, q: InternalRoute, r: InternalRoute)
    requires ThereBefore(acts, t, q) || exists i :: BroughtAt(acts, i, self, q)
    requires SameButStale(r, q) && !Recalls(x.action, r) && (r.isStale ==> q.isStale || Fails(x.action, r))
    ensures ThereBefore(acts + [x], t, r) || exists i :: BroughtAt(acts + [x], i, self, r)
  {
    var more := acts + [x];
    if i :| BroughtAt(acts, i, self, q) {
      LastsSnoc(acts, x, i + 1, q, false, r);
      assert more[i] == acts[i] && r.(isStale := false) == q.(isStale := false);
      assert BroughtAt(more, i, self, r);
    } else {
      var was :| was in t.internal && SameButStale(q, was) && Lasts(acts, 0, q, was.isStale);
      LastsSnoc(acts, x, 0, q, was.isStale, r);
      assert SameButStale(r, was);
    }
  }

  /** Every route held after any run was held at the start, or an update of the run brought it, channel, sender, path and
      origin as received; in either case nothing has withdrawn its key since, and it is stale only through a transport
      failure of its peer. */
  lemma {:induction false} RoutesHaveHistory(self: string, acts: seq<Timed>, t: RouteTable, r: InternalRoute)
    requires r in Replay(self, acts, t).internal
    ensures ThereBefore(acts, t, r) || exists i :: BroughtAt(acts, i, self, r)
    decreases |acts|
  {
    if |acts| == 0 {
      assert SameButStale(r, r) && Lasts(acts, 0, r, r.isStale);
    } else {
      var before, x := acts[..|acts| - 1], acts[|acts| - 1];
      assert acts == before + [x] && [x][1..] == [];
      ReplayAppend(self, before, [x], t);
      StepHistory(self, x, Replay(self, before, t), r);
      if x.action.InternalProtocolUpdate? && BroughtBy(r, self, x.action.info, x.action.items) {
        assert r.(isStale := false) == r;
        assert BroughtAt(acts, |before|, self, r);
      } else {
        var q :| q in Replay(self, before, t).internal && SameButStale(r, q) && !Recalls(x.action, r) && (r.isStale ==> q.isStale || Fails(x.action, r));
        RoutesHaveHistory(self, before, t, q);
        HistorySnoc(self, before, x, t, q, r);
      }
    }
  }
}
