/** What every plan keeps, and what the change report of a plan says about the new table. */
module RibTheorems {
  import opened KeyedLists
  import opened RouteTypes
  import opened Rib

  /** Distinct peers, local names and (name, origin) keys; no learned path passes through `self`. */
  ghost predicate WellFormed(self: string, t: RouteTable) {
    && Unique(PeerName, t.peers)
    && Unique(ChannelName, t.local)
    && Unique(KeyOf, t.internal)
    && forall r :: r in t.internal ==> self !in r.nodePath
  }

  lemma ItemStepKeeps(self: string, from: PeerInfo, u: UpdateItem, routes: seq<InternalRoute>)
    requires Unique(KeyOf, routes) && forall r :: r in routes ==> self !in r.nodePath
    ensures var e := ItemStep(self, from, u, routes);
            Unique(KeyOf, e.routes) && forall r :: r in e.routes ==> self !in r.nodePath
  {
    var e := ItemStep(self, from, u, routes);
    if u.verb.Remove? {
      WithoutUnique(KeyOf, KeyOf, routes, {ItemKey(u)});
    }
  }

  lemma {:induction false} ItemLoopKeeps(self: string, from: PeerInfo, us: seq<UpdateItem>, routes: seq<InternalRoute>)
    requires Unique(KeyOf, routes) && forall r :: r in routes ==> self !in r.nodePath
    ensures var e := ItemLoop(self, from, us, routes);
            Unique(KeyOf, e.routes) && forall r :: r in e.routes ==> self !in r.nodePath
  {
    if |us| > 0 {
      ItemStepKeeps(self, from, us[0], routes);
      ItemLoopKeeps(self, from, us[1..], ItemStep(self, from, us[0], routes).routes);
    }
  }

  /** Two lists with the same keys in the same places. */
  lemma SameKeysUnique<T, K>(key: T -> K, xs: seq<T>, ys: seq<T>)
    requires Unique(key, xs) && |xs| == |ys| && forall i :: 0 <= i < |xs| ==> key(ys[i]) == key(xs[i])
    ensures Unique(key, ys)
  {
  }

  lemma CloseKeepsWellFormed(self: string, info: PeerInfo, code: int, t: RouteTable)
    requires WellFormed(self, t)
    ensures WellFormed(self, PlanInternalProtocolClose(info, code, t).next)
  {
    var next := PlanInternalProtocolClose(info, code, t).next;
    SameKeysUnique(PeerName, t.peers, next.peers);
    if code == TRANSPORT_ERROR {
      var marked := StaleVia(t.internal, info.name);
      SameKeysUnique(KeyOf, t.internal, marked);
      forall r | r in marked ensures self !in r.nodePath {
        var i :| 0 <= i < |marked| && marked[i] == r;
        assert t.internal[i] in t.internal;
      }
    } else {
      WithoutUnique(Via, KeyOf, t.internal, {info.name});
    }
  }

  lemma TickKeepsWellFormed(self: string, now: int, t: RouteTable)
    requires WellFormed(self, t)
    ensures WellFormed(self, PlannedTick(now, t).next)
  {
    SameKeysUnique(PeerName, t.peers, CloseAllExpired(t.peers, now));
    WithoutUnique(Via, KeyOf, t.internal, Purged(now, t));
  }

  lemma LocalKeepsWellFormed(self: string, a: Action, t: RouteTable, clock: int)
    requires WellFormed(self, t) && (a.LocalRouteCreate? || a.LocalRouteDelete? || a.LocalRouteHealthUpdate?)
    ensures WellFormed(self, Planned(self, a, t, clock).next)
  {
    if a.LocalRouteDelete? {
      WithoutUnique(ChannelName, ChannelName, t.local, {a.name});
    }
  }

  /** Well-formedness is kept by every action. */
  lemma PlanKeepsWellFormed(self: string, a: Action, t: RouteTable, clock: int)
    requires WellFormed(self, t)
    ensures WellFormed(self, Planned(self, a, t, clock).next)
  {
    match a
    case LocalRouteCreate(_) => LocalKeepsWellFormed(self, a, t, clock);
    case LocalRouteDelete(_) => LocalKeepsWellFormed(self, a, t, clock);
    case LocalRouteHealthUpdate(_, _, _, _) => LocalKeepsWellFormed(self, a, t, clock);
    case LocalPeerCreate(_) =>
    case LocalPeerDelete(name) =>
      WithoutUnique(PeerName, PeerName, t.peers, {name});
      WithoutUnique(Via, KeyOf, t.internal, {name});
    case InternalProtocolClose(info, code) => CloseKeepsWellFormed(self, info, code, t);
    case InternalProtocolUpdate(info, us) => ItemLoopKeeps(self, info, us, t.internal);
    case Tick(now) => TickKeepsWellFormed(self, now, t);
    case _ => SameKeysUnique(PeerName, t.peers, Planned(self, a, t, clock).next.peers);
  }

  lemma UnchangedPlan(self: string, a: Action, t: RouteTable, clock: int)
    ensures !Planned(self, a, t, clock).changed ==> Planned(self, a, t, clock).next == t
  {
  }

  /** The change report replays to the new table: nothing missing, nothing extra, same order. */
  ghost predicate Reports(cs: seq<RouteChange>, t: RouteTable, t': RouteTable) {
    && Fold(ChannelName, LocalDeltas(cs), t.local) == t'.local
    && Fold(KeyOf, PeerDeltas(cs), t.internal) == t'.internal
  }

  lemma OnePeerDelta(c: RouteChange, routes: seq<InternalRoute>)
    requires c.x.OfPeer?
    ensures var d := match c case Added(x) => Added(x.ir) case Updated(x) => Updated(x.ir) case Removed(x) => Removed(x.ir);
            PeerDeltas([c]) == [d] && LocalDeltas([c]) == [] && Fold(KeyOf, [d], routes) == Apply(KeyOf, d, routes)
  {
    assert [c][1..] == [];
  }

  /** One item reports what it does: at most one delta, which applies to the table as it stands. */
  lemma StepReports(self: string, from: PeerInfo, u: UpdateItem, routes: seq<InternalRoute>)
    ensures var e := ItemStep(self, from, u, routes);
            && Fold(KeyOf, PeerDeltas(e.changes), routes) == e.routes && LocalDeltas(e.changes) == []
            && |e.portOps| <= |e.changes| && |PeerDeltas(e.changes)| <= 1 && Sensible(KeyOf, PeerDeltas(e.changes), routes)
  {
    var e := ItemStep(self, from, u, routes);
    if |e.changes| > 0 {
      OnePeerDelta(e.changes[0], routes);
      assert e.changes == [e.changes[0]];
    }
  }

  lemma ReportsCompose(e: Effect, rest: Effect, routes: seq<InternalRoute>)
    requires Fold(KeyOf, PeerDeltas(e.changes), routes) == e.routes && LocalDeltas(e.changes) == []
    requires Fold(KeyOf, PeerDeltas(rest.changes), e.routes) == rest.routes && LocalDeltas(rest.changes) == []
    ensures Fold(KeyOf, PeerDeltas(Then(e, rest).changes), routes) == rest.routes && LocalDeltas(Then(e, rest).changes) == []
  {
    PeerDeltasAppend(e.changes, rest.changes);
    FoldAppend(KeyOf, PeerDeltas(e.changes), PeerDeltas(rest.changes), routes);
  }

  lemma {:induction false} ItemLoopReports(self: string, from: PeerInfo, us: seq<UpdateItem>, routes: seq<InternalRoute>)
    ensures var e := ItemLoop(self, from, us, routes);
            Fold(KeyOf, PeerDeltas(e.changes), routes) == e.routes && LocalDeltas(e.changes) == []
    ensures |ItemLoop(self, from, us, routes).portOps| <= |ItemLoop(self, from, us, routes).changes|
  {
    if |us| > 0 {
      var e := ItemStep(self, from, us[0], routes);
      StepReports(self, from, us[0], routes);
      ItemLoopReports(self, from, us[1..], e.routes);
      ReportsCompose(e, ItemLoop(self, from, us[1..], e.routes), routes);
    }
  }

  lemma UpdatedRoutesAre(self: string, info: PeerInfo, us: seq<UpdateItem>, t: RouteTable, clock: int)
    ensures PlannedUpdate(self, info, us, t, clock).next.internal == ItemLoop(self, info, us, t.internal).routes
    ensures PlannedUpdate(self, info, us, t, clock).next.local == t.local
  {
    ItemLoopReports(self, info, us, t.internal);
  }

  lemma StaleMarkOf(rs: seq<InternalRoute>, name: string, r: InternalRoute)
    requires Unique(KeyOf, rs) && r in rs
    ensures Find(KeyOf, StaleAll(Within(Via, rs, {name})), KeyOf(r)) == if Via(r) == name then Some(Stale(r)) else None
    ensures Unique(KeyOf, StaleAll(Within(Via, rs, {name})))
  {
    var theirs := Within(Via, rs, {name});
    var marks := StaleAll(theirs);
    WithinUnique(Via, KeyOf, rs, {name});
    assert forall i :: 0 <= i < |marks| ==> marks[i] == Stale(theirs[i]) && KeyOf(marks[i]) == KeyOf(theirs[i]);
    if Via(r) == name {
      assert r in theirs;
      var m :| 0 <= m < |theirs| && theirs[m] == r;
      assert marks[m] == Stale(r) && Stale(r) in marks;
      FindMember(KeyOf, marks, Stale(r));
    } else {
      forall n | 0 <= n < |marks| ensures KeyOf(marks[n]) != KeyOf(r) {
        assert theirs[n] in theirs;
        if KeyOf(theirs[n]) == KeyOf(r) {
          UniqueMember(KeyOf, rs, theirs[n], r);
        }
      }
    }
  }

  lemma CloseReports(rs: seq<InternalRoute>, name: string)
    requires Unique(KeyOf, rs)
    ensures Fold(KeyOf, Updates(StaleAll(Within(Via, rs, {name}))), rs) == StaleVia(rs, name)
  {
    var marks := StaleAll(Within(Via, rs, {name}));
    if |rs| > 0 {
      StaleMarkOf(rs, name, rs[0]);
    } else {
      assert marks == [];
    }
    FoldUpdates(KeyOf, marks, rs);
    forall i | 0 <= i < |rs|
      ensures Fold(KeyOf, Updates(marks), rs)[i] == StaleVia(rs, name)[i]
    {
      StaleMarkOf(rs, name, rs[i]);
    }
  }

  lemma LocalDelta(plan: PlanResult)
    ensures |plan.changes| == 1 && plan.changes[0].x.OfLocal? ==>
              |LocalDeltas(plan.changes)| == 1 && PeerDeltas(plan.changes) == []
              && LocalDeltas(plan.changes)[0] == match plan.changes[0]
                                                 case Added(x) => Added(x.ch)
                                                 case Updated(x) => Updated(x.ch)
                                                 case Removed(x) => Removed(x.ch)
  {
  }

  lemma RemovalsExact(t: RouteTable, names: set<string>)
    requires Unique(KeyOf, t.internal)
    ensures var cs := RemovedRoutes(Within(Via, t.internal, names));
            LocalDeltas(cs) == [] && Fold(KeyOf, PeerDeltas(cs), t.internal) == Without(Via, t.internal, names)
            && Sensible(KeyOf, PeerDeltas(cs), t.internal)
  {
    var gone := Within(Via, t.internal, names);
    DeltasOfReports(gone);
    FoldRemovals(KeyOf, Via, t.internal, names);
    RemovalsSensible(KeyOf, gone, t.internal);
  }

  lemma StaleExact(t: RouteTable, name: string)
    requires Unique(KeyOf, t.internal)
    ensures var cs := UpdatedRoutes(StaleAll(Within(Via, t.internal, {name})));
            LocalDeltas(cs) == [] && Fold(KeyOf, PeerDeltas(cs), t.internal) == StaleVia(t.internal, name)
            && Sensible(KeyOf, PeerDeltas(cs), t.internal)
  {
    DeltasOfReports(StaleAll(Within(Via, t.internal, {name})));
    CloseReports(t.internal, name);
    CloseSensible(t.internal, name);
  }

  /** The report of a plan is exact and sensible, and an unchanged plan reports nothing. */
  ghost predicate Exact(plan: PlanResult, t: RouteTable) {
    && plan.prev == t
    && Reports(plan.changes, t, plan.next)
    && Sensible(ChannelName, LocalDeltas(plan.changes), t.local)
    && Sensible(KeyOf, PeerDeltas(plan.changes), t.internal)
    && (!plan.changed ==> plan.next == t && plan.changes == [] && plan.portOps == [])
  }

  lemma LocalExact(self: string, a: Action, t: RouteTable, clock: int)
    requires a.LocalRouteCreate? || a.LocalRouteDelete? || a.LocalRouteHealthUpdate?
    ensures Exact(Planned(self, a, t, clock), t)
  {
    LocalDelta(Planned(self, a, t, clock));
  }

  lemma CloseExact(info: PeerInfo, code: int, t: RouteTable)
    requires Unique(KeyOf, t.internal)
    ensures Exact(PlanInternalProtocolClose(info, code, t), t)
  {
    if code == TRANSPORT_ERROR {
      StaleExact(t, info.name);
    } else {
      RemovalsExact(t, {info.name});
    }
  }

  lemma TickExact(now: int, t: RouteTable)
    requires Unique(KeyOf, t.internal)
    ensures Exact(PlannedTick(now, t), t)
  {
    RemovalsExact(t, Purged(now, t));
  }

  lemma PeerDeleteExact(name: string, t: RouteTable)
    requires Unique(KeyOf, t.internal)
    ensures Exact(PlanLocalPeerDelete(name, t), t)
  {
    RemovalsExact(t, {name});
  }

  /** The other actions report no route change and make none. */
  lemma SessionExact(self: string, a: Action, t: RouteTable, clock: int)
    requires a.LocalPeerCreate? || a.LocalPeerUpdate? || a.InternalProtocolOpen? || a.InternalProtocolConnected? || a.InternalProtocolKeepalive?
    ensures Exact(Planned(self, a, t, clock), t)
  {
  }

  lemma UpdateExact(self: string, info: PeerInfo, us: seq<UpdateItem>, t: RouteTable, clock: int)
    ensures Exact(PlannedUpdate(self, info, us, t, clock), t)
  {
    ItemLoopReports(self, info, us, t.internal);
    ItemLoopSensible(self, info, us, t.internal);
  }

  /** Deltas are exact for all twelve actions: replaying the report of a plan on the old table gives exactly the new one,
      each addition is of an absent route and each update of a present one, and an unchanged plan reports nothing. */
  lemma DeltasAreExact(self: string, a: Action, t: RouteTable, clock: int)
    requires Unique(KeyOf, t.internal)
    ensures Exact(Planned(self, a, t, clock), t)
  {
    match a
    case LocalPeerDelete(name) => PeerDeleteExact(name, t);
    case InternalProtocolClose(info, code) => CloseExact(info, code, t);
    case InternalProtocolUpdate(info, us) => UpdateExact(self, info, us, t, clock);
    case Tick(now) => TickExact(now, t);
    case LocalRouteCreate(_) => LocalExact(self, a, t, clock);
    case LocalRouteDelete(_) => LocalExact(self, a, t, clock);
    case LocalRouteHealthUpdate(_, _, _, _) => LocalExact(self, a, t, clock);
    case _ => SessionExact(self, a, t, clock);
  }

  lemma {:induction false} ItemLoopSensible(self: string, from: PeerInfo, us: seq<UpdateItem>, routes: seq<InternalRoute>)
    ensures Sensible(KeyOf, PeerDeltas(ItemLoop(self, from, us, routes).changes), routes)
  {
    if |us| > 0 {
      var e := ItemStep(self, from, us[0], routes);
      StepReports(self, from, us[0], routes);
      ItemLoopSensible(self, from, us[1..], e.routes);
      SensibleCompose(e, ItemLoop(self, from, us[1..], e.routes), routes);
    }
  }

  lemma SensibleCompose(e: Effect, rest: Effect, routes: seq<InternalRoute>)
    requires Fold(KeyOf, PeerDeltas(e.changes), routes) == e.routes && |PeerDeltas(e.changes)| <= 1
    requires Sensible(KeyOf, PeerDeltas(e.changes), routes) && Sensible(KeyOf, PeerDeltas(rest.changes), e.routes)
    ensures Sensible(KeyOf, PeerDeltas(Then(e, rest).changes), routes)
  {
    PeerDeltasAppend(e.changes, rest.changes);
    var ds, more := PeerDeltas(e.changes), PeerDeltas(rest.changes);
    if ds == [] {
      assert ds + more == more;
    } else {
      assert ds == [ds[0]] && ds[1..] == [];
      assert Fold(KeyOf, ds, routes) == Apply(KeyOf, ds[0], routes);
      SensibleCons(KeyOf, ds[0], more, routes);
    }
  }

  lemma CloseSensible(rs: seq<InternalRoute>, name: string)
    ensures Sensible(KeyOf, Updates(StaleAll(Within(Via, rs, {name}))), rs)
  {
    var theirs := Within(Via, rs, {name});
    forall u | u in StaleAll(theirs) ensures Find(KeyOf, rs, KeyOf(u)).Some? {
      var i :| 0 <= i < |theirs| && StaleAll(theirs)[i] == u;
      assert theirs[i] in theirs && KeyOf(theirs[i]) == KeyOf(u);
    }
    UpdatesSensible(KeyOf, StaleAll(theirs), rs);
  }

  /** Configuration actions are idempotent: repeated at any later time on their own result, they change nothing. */
  lemma RepeatIsIgnored(self: string, a: Action, t: RouteTable, clock: int, clock': int)
    requires a.LocalPeerCreate? || a.LocalPeerDelete? || a.LocalRouteCreate? || a.LocalRouteDelete? || a.LocalRouteHealthUpdate?
    ensures !Planned(self, a, Planned(self, a, t, clock).next, clock').changed
  {
    var next := Planned(self, a, t, clock).next;
    match a
    case LocalPeerCreate(info) =>
      IndexOfAppend(PeerName, t.peers, PeerRecord(info, Initializing, 0, DEFAULT_HOLD_TIME, 0, 0), info.name);
    case LocalPeerDelete(name) => WithoutNone(PeerName, next.peers, {name});
    case LocalRouteCreate(ch) => IndexOfAppend(ChannelName, t.local, ch, ch.name);
    case LocalRouteDelete(name) => FindWithout(ChannelName, t.local, {name}, name);
    case LocalRouteHealthUpdate(name, h, l, c) =>
      var i := IndexOf(ChannelName, t.local, name);
      if i >= 0 {
        IndexOfIs(ChannelName, next.local, name, i);
      }
  }
}

/** The update loop against a specification per route key. */
module UpdateLoop {
  import opened KeyedLists
  import opened RouteTypes
  import opened Rib

  /** Two batches in one message act as two messages. */
  lemma {:induction false} BatchesCompose(self: string, from: PeerInfo, us: seq<UpdateItem>, vs: seq<UpdateItem>, routes: seq<InternalRoute>)
    ensures ItemLoop(self, from, us + vs, routes)
            == Then(ItemLoop(self, from, us, routes), ItemLoop(self, from, vs, ItemLoop(self, from, us, routes).routes))
  {
    if |us| == 0 {
      assert us + vs == vs;
    } else {
      var e := ItemStep(self, from, us[0], routes);
      assert (us + vs)[1..] == us[1..] + vs;
      BatchesCompose(self, from, us[1..], vs, e.routes);
      var first := ItemLoop(self, from, us[1..], e.routes);
      ThenAssociates(e, first, ItemLoop(self, from, vs, first.routes));
    }
  }

  predicate Withdraws(us: seq<UpdateItem>, k: RouteKey) {
    exists u :: u in us && u.verb.Remove? && ItemKey(u) == k
  }

  /** The advertisements of `k` in `us` that `self` does not discard as loops, in order. */
  function Offers(self: string, from: PeerInfo, us: seq<UpdateItem>, k: RouteKey): seq<InternalRoute> {
    if |us| == 0 then []
    else if us[0].verb.Add? && ItemKey(us[0]) == k && self !in us[0].nodePath then
      [Learned(from, us[0])] + Offers(self, from, us[1..], k)
    else Offers(self, from, us[1..], k)
  }

  /** The items after the last withdrawal of `k`. */
  function AfterWithdrawal(us: seq<UpdateItem>, k: RouteKey): seq<UpdateItem> {
    if Withdraws(us, k) then AfterWithdrawal(us[1..], k) else us
  }

  function Fresh(existing: Option<InternalRoute>): seq<InternalRoute> {
    if existing.Some? && !existing.value.isStale then [existing.value] else []
  }

  /** The routes in competition for `k`: the fresh route already held, unless withdrawn, then the offers made since. */
  function Candidates(self: string, from: PeerInfo, us: seq<UpdateItem>, k: RouteKey, existing: Option<InternalRoute>): seq<InternalRoute> {
    (if Withdraws(us, k) then [] else Fresh(existing)) + Offers(self, from, AfterWithdrawal(us, k), k)
  }

  /** `r` is the earliest of the shortest candidates. */
  ghost predicate FirstShortest(r: InternalRoute, cs: seq<InternalRoute>) {
    exists i :: FirstShortestAt(i, r, cs)
  }

  predicate FirstShortestAt(i: int, r: InternalRoute, cs: seq<InternalRoute>) {
    && 0 <= i < |cs| && cs[i] == r
    && (forall j :: 0 <= j < i ==> |r.nodePath| < |cs[j].nodePath|)
    && (forall j :: i <= j < |cs| ==> |r.nodePath| <= |cs[j].nodePath|)
  }

  /** What the table holds for `k` after the loop, in terms of the items alone. */
  ghost predicate Settles(found: Option<InternalRoute>, self: string, from: PeerInfo, us: seq<UpdateItem>, k: RouteKey, existing: Option<InternalRoute>) {
    var cs := Candidates(self, from, us, k, existing);
    if cs == [] then found == (if Withdraws(us, k) then None else existing)
    else found.Some? && FirstShortest(found.value, cs)
  }

  lemma FindStep(self: string, from: PeerInfo, u: UpdateItem, routes: seq<InternalRoute>, k: RouteKey)
    ensures var existing := Find(KeyOf, routes, k);
            Find(KeyOf, ItemStep(self, from, u, routes).routes, k) ==
            if ItemKey(u) != k then existing
            else if u.verb.Remove? then None
            else if self in u.nodePath then existing
            else if existing.None? || existing.value.isStale || |u.nodePath| < |existing.value.nodePath| then Some(Learned(from, u))
            else existing
  {
    FindApply(KeyOf, Added(Learned(from, u)), routes, k);
    FindApply(KeyOf, Updated(Learned(from, u)), routes, k);
    FindApply(KeyOf, Removed(Learned(from, u)), routes, k);
  }

  lemma ShortestOfTwo(a: InternalRoute, b: InternalRoute, cs: seq<InternalRoute>, r: InternalRoute)
    requires FirstShortest(r, [if |b.nodePath| < |a.nodePath| then b else a] + cs)
    ensures FirstShortest(r, [a, b] + cs)
  {
    var one := [if |b.nodePath| < |a.nodePath| then b else a] + cs;
    var two := [a, b] + cs;
    var i :| FirstShortestAt(i, r, one);
    assert forall j :: 2 <= j < |two| ==> two[j] == one[j - 1];
    if i > 0 {
      assert |r.nodePath| < |one[0].nodePath|;
      assert FirstShortestAt(i + 1, r, two);
    } else if |b.nodePath| < |a.nodePath| {
      assert FirstShortestAt(1, r, two);
    } else {
      assert FirstShortestAt(0, r, two);
    }
  }

  /** One more item in front: an advertisement that survives loop detection. */
  lemma OfferSettles(found: Option<InternalRoute>, self: string, from: PeerInfo, u: UpdateItem, rest: seq<UpdateItem>, k: RouteKey,
                     existing: Option<InternalRoute>, held: Option<InternalRoute>)
    requires u.verb.Add? && ItemKey(u) == k && self !in u.nodePath && !Withdraws(rest, k)
    requires held == if existing.None? || existing.value.isStale || |u.nodePath| < |existing.value.nodePath| then Some(Learned(from, u)) else existing
    requires Settles(found, self, from, rest, k, held)
    ensures Settles(found, self, from, [u] + rest, k, existing)
  {
    var us := [u] + rest;
    var offer, offers := Learned(from, u), Offers(self, from, rest, k);
    assert us[1..] == rest && !Withdraws(us, k);
    assert Candidates(self, from, rest, k, held) == [held.value] + offers;
    if existing.Some? && !existing.value.isStale {
      assert Candidates(self, from, us, k, existing) == [existing.value, offer] + offers;
      ShortestOfTwo(existing.value, offer, offers, found.value);
    } else {
      assert Candidates(self, from, us, k, existing) == [offer] + offers;
    }
  }

  /** One more item in front: any other item. */
  lemma OtherSettles(found: Option<InternalRoute>, self: string, from: PeerInfo, u: UpdateItem, rest: seq<UpdateItem>, k: RouteKey,
                     existing: Option<InternalRoute>, held: Option<InternalRoute>)
    requires !(u.verb.Add? && ItemKey(u) == k && self !in u.nodePath) || Withdraws(rest, k)
    requires held == if u.verb.Remove? && ItemKey(u) == k then None else if Withdraws(rest, k) then held else existing
    requires Settles(found, self, from, rest, k, held)
    ensures Settles(found, self, from, [u] + rest, k, existing)
  {
    var us := [u] + rest;
    assert us[1..] == rest;
    assert u in us && forall w :: w in rest ==> w in us;
    if Withdraws(rest, k) {
      var w :| w in rest && w.verb.Remove? && ItemKey(w) == k;
      assert w in us && Withdraws(us, k);
    }
    if u.verb.Remove? && ItemKey(u) == k {
      assert Withdraws(us, k);
    }
    assert Candidates(self, from, us, k, existing) == Candidates(self, from, rest, k, held);
  }

  /** The update loop leaves, for each key, the first shortest of the candidates. */
  lemma {:induction false} LoopSettles(self: string, from: PeerInfo, us: seq<UpdateItem>, routes: seq<InternalRoute>, k: RouteKey)
    ensures Settles(Find(KeyOf, ItemLoop(self, from, us, routes).routes, k), self, from, us, k, Find(KeyOf, routes, k))
  {
    var existing := Find(KeyOf, routes, k);
    if |us| == 0 {
      assert Candidates(self, from, us, k, existing) == Fresh(existing);
      if Fresh(existing) != [] {
        assert FirstShortestAt(0, existing.value, Fresh(existing));
      }
    } else {
      var u, rest := us[0], us[1..];
      var mid := ItemStep(self, from, u, routes).routes;
      var found := Find(KeyOf, ItemLoop(self, from, us, routes).routes, k);
      FindStep(self, from, u, routes, k);
      LoopSettles(self, from, rest, mid, k);
      assert us == [u] + rest;
      if u.verb.Add? && ItemKey(u) == k && self !in u.nodePath && !Withdraws(rest, k) {
        OfferSettles(found, self, from, u, rest, k, existing, Find(KeyOf, mid, k));
      } else {
        OtherSettles(found, self, from, u, rest, k, existing, Find(KeyOf, mid, k));
      }
    }
  }

  /** The specification has one answer. */
  lemma SettlesUniquely(a: Option<InternalRoute>, b: Option<InternalRoute>, self: string, from: PeerInfo, us: seq<UpdateItem>, k: RouteKey, existing: Option<InternalRoute>)
    requires Settles(a, self, from, us, k, existing) && Settles(b, self, from, us, k, existing)
    ensures a == b
  {
    var cs := Candidates(self, from, us, k, existing);
    if cs != [] {
      var i :| FirstShortestAt(i, a.value, cs);
      var j :| FirstShortestAt(j, b.value, cs);
      assert !(i < j) && !(j < i);
    }
  }

  lemma {:induction false} OffersAreFresh(self: string, from: PeerInfo, us: seq<UpdateItem>, k: RouteKey)
    ensures forall r :: r in Offers(self, from, us, k) ==> !r.isStale
  {
    if |us| > 0 {
      OffersAreFresh(self, from, us[1..], k);
    }
  }

  lemma FirstShortestAgain(r: InternalRoute, before: seq<InternalRoute>, offers: seq<InternalRoute>)
    requires FirstShortest(r, before + offers)
    ensures FirstShortest(r, [r] + offers)
  {
    var cs, again := before + offers, [r] + offers;
    var i :| FirstShortestAt(i, r, cs);
    forall j | 0 <= j < |again| ensures |r.nodePath| <= |again[j].nodePath| {
      if j > 0 {
        assert again[j] == cs[|before| + j - 1];
      }
    }
    assert FirstShortestAt(0, r, again);
  }

  /** A node remembers no alternatives: an offer no better than its fresh route leaves no trace, so when the route is
      withdrawn nothing is held for the key, although the offer was never taken back. */
  lemma AlternativesAreForgotten(self: string, from: PeerInfo, other: PeerInfo, u: UpdateItem, w: UpdateItem, routes: seq<InternalRoute>)
    requires var held := Find(KeyOf, routes, ItemKey(u)); held.Some? && !held.value.isStale && |u.nodePath| >= |held.value.nodePath|
    requires u.verb.Add? && w.verb.Remove? && ItemKey(w) == ItemKey(u)
    ensures var offered := ItemLoop(self, other, [u], routes);
            && offered.routes == routes && offered.changes == []
            && Find(KeyOf, ItemLoop(self, from, [w], offered.routes).routes, ItemKey(u)).None?
  {
    assert [u][1..] == [] && [w][1..] == [];
    FindStep(self, from, w, routes, ItemKey(u));
    assert ItemLoop(self, from, [w], routes).routes == ItemStep(self, from, w, routes).routes;
  }

  /** What settled once stays settled when the same items are weighed again. */
  lemma SettledStays(held: Option<InternalRoute>, self: string, from: PeerInfo, us: seq<UpdateItem>, k: RouteKey, existing: Option<InternalRoute>)
    requires Settles(held, self, from, us, k, existing)
    ensures Settles(held, self, from, us, k, held)
  {
    var cs := Candidates(self, from, us, k, existing);
    if !Withdraws(us, k) && cs != [] {
      var offers := Offers(self, from, us, k);
      OffersAreFresh(self, from, us, k);
      assert cs == Fresh(existing) + offers;
      FirstShortestAgain(held.value, Fresh(existing), offers);
      assert Candidates(self, from, us, k, held) == [held.value] + offers;
    }
  }

  /** Delivering the same message twice leaves every key as delivering it once. */
  lemma RedeliveryIsHarmless(self: string, from: PeerInfo, us: seq<UpdateItem>, routes: seq<InternalRoute>, k: RouteKey)
    ensures var once := ItemLoop(self, from, us, routes).routes;
            Find(KeyOf, ItemLoop(self, from, us, once).routes, k) == Find(KeyOf, once, k)
  {
    var once := ItemLoop(self, from, us, routes).routes;
    var held := Find(KeyOf, once, k);
    LoopSettles(self, from, us, routes, k);
    LoopSettles(self, from, us, once, k);
    SettledStays(held, self, from, us, k, Find(KeyOf, routes, k));
    SettlesUniquely(Find(KeyOf, ItemLoop(self, from, us, once).routes, k), held, self, from, us, k, held);
  }

  lemma {:induction false} WithoutAppend(xs: seq<InternalRoute>, x: InternalRoute, ks: set<RouteKey>)
    ensures Without(KeyOf, xs + [x], ks) == Without(KeyOf, xs, ks) + if KeyOf(x) in ks then [] else [x]
  {
    if |xs| == 0 {
      assert xs + [x] == [x];
    } else {
      assert (xs + [x])[1..] == xs[1..] + [x];
      WithoutAppend(xs[1..], x, ks);
    }
  }

  lemma {:induction false} WithoutReplace(xs: seq<InternalRoute>, i: nat, x: InternalRoute, ks: set<RouteKey>)
    requires i < |xs| && KeyOf(xs[i]) in ks && KeyOf(x) in ks
    ensures Without(KeyOf, xs[i := x], ks) == Without(KeyOf, xs, ks)
  {
    if i == 0 {
      assert xs[i := x][1..] == xs[1..];
    } else {
      assert xs[i := x][1..] == xs[1..][i - 1 := x];
      WithoutReplace(xs[1..], i - 1, x, ks);
    }
  }

  lemma StepLeavesOthers(self: string, from: PeerInfo, u: UpdateItem, routes: seq<InternalRoute>, ks: set<RouteKey>)
    requires ItemKey(u) in ks
    ensures Without(KeyOf, ItemStep(self, from, u, routes).routes, ks) == Without(KeyOf, routes, ks)
  {
    var i := IndexOf(KeyOf, routes, ItemKey(u));
    if u.verb.Remove? {
      WithoutTwice(KeyOf, routes, {ItemKey(u)}, ks);
      assert {ItemKey(u)} + ks == ks;
    } else if i >= 0 {
      WithoutReplace(routes, i, Learned(from, u), ks);
    } else {
      WithoutAppend(routes, Learned(from, u), ks);
    }
  }

  /** Routes of keys the message does not mention keep their places. */
  lemma {:induction false} OtherKeysUntouched(self: string, from: PeerInfo, us: seq<UpdateItem>, routes: seq<InternalRoute>, ks: set<RouteKey>)
    requires forall u :: u in us ==> ItemKey(u) in ks
    ensures Without(KeyOf, ItemLoop(self, from, us, routes).routes, ks) == Without(KeyOf, routes, ks)
  {
    if |us| > 0 {
      assert us[0] in us;
      StepLeavesOthers(self, from, us[0], routes, ks);
      OtherKeysUntouched(self, from, us[1..], ItemStep(self, from, us[0], routes).routes, ks);
    }
  }
}
