/** When following the deltas gives exactly the full table sync, and when it leaves routes behind. */
module ViewExact {
  import opened KeyedLists
  import opened RouteTypes
  import opened Rib
  import opened RibTheorems
  import opened UpdateLoop
  import opened BusSpec
  import opened PortErasure
  import opened DispatchFacts
  import opened PortAgreement
  import opened IncrementalSync
  import Flooding
  import RecoveryLimits

  // -------------------------------------------------------------------------
  // Exact views
  // -------------------------------------------------------------------------

  /** A full sync to `peer` would advertise `k`. */
  predicate Expected(self: string, peer: string, local: seq<DataChannel>, internal: seq<InternalRoute>, k: RouteKey) {
    if k.origin == self then Find(ChannelName, local, k.name).Some?
    else Find(KeyOf, internal, k).Some? && Passable(Find(KeyOf, internal, k).value, peer)
  }

  ghost predicate NoExcess(self: string, peer: string, local: seq<DataChannel>, internal: seq<InternalRoute>, v: View) {
    forall k :: k in v ==> Expected(self, peer, local, internal, k)
  }

  /** The view has what a full sync would advertise, with its path, and nothing else. */
  ghost predicate Exactly(self: string, peer: string, t: RouteTable, v: View) {
    Covers(self, peer, t.local, t.internal, v) && NoExcess(self, peer, t.local, t.internal, v)
  }

  lemma {:induction false} AddedKeys(v: View, us: seq<UpdateItem>, k: RouteKey)
    requires forall u :: u in us ==> u.verb.Add?
    ensures k in HeardAll(v, us) <==> k in v || exists u :: u in us && ItemKey(u) == k
    decreases us
  {
    if |us| > 0 {
      assert us[0] in us;
      AddedKeys(Heard(v, us[0]), us[1..], k);
      assert forall u :: u in us <==> u == us[0] || u in us[1..];
    }
  }

  lemma SyncExpected(cfg: NodeConfig, p: PeerRecord, t: RouteTable, u: UpdateItem)
    requires cfg.policy.NoPolicy? && WellFormed(cfg.name, t) && OwnFree(cfg.name, t.internal) && u in FullSync(cfg, p, t)
    ensures u.verb.Add? && Expected(cfg.name, PeerName(p), t.local, t.internal, ItemKey(u))
  {
    SyncItem(cfg, p, t, u);
    if r :| r in t.internal && Passable(r, PeerName(p)) && ItemKey(u) == KeyOf(r) && u.nodePath == [cfg.name] + r.nodePath {
      FindMember(KeyOf, t.internal, r);
    }
  }

  /** A full sync on an exact view, or on none, gives an exact view. */
  lemma SyncIsExact(cfg: NodeConfig, p: PeerRecord, t: RouteTable, v: View)
    requires cfg.policy.NoPolicy? && WellFormed(cfg.name, t) && OwnFree(cfg.name, t.internal)
    requires NoExcess(cfg.name, PeerName(p), t.local, t.internal, v)
    ensures Exactly(cfg.name, PeerName(p), t, HeardAll(v, FullSync(cfg, p, t)))
  {
    var us := FullSync(cfg, p, t);
    FullSyncCovers(cfg, p, t, v);
    forall u | u in us ensures u.verb.Add? && Expected(cfg.name, PeerName(p), t.local, t.internal, ItemKey(u)) {
      SyncExpected(cfg, p, t, u);
    }
    forall k | k in HeardAll(v, us) ensures Expected(cfg.name, PeerName(p), t.local, t.internal, k) {
      AddedKeys(v, us, k);
    }
  }

  lemma ExactViewsEqual(self: string, peer: string, t: RouteTable, v: View, w: View)
    requires Exactly(self, peer, t, v) && Exactly(self, peer, t, w) && OwnFree(self, t.internal)
    ensures v == w
  {
    forall k ensures (k in v <==> k in w) && (k in v ==> v[k] == w[k]) {
      if k in v {
        assert Expected(self, peer, t.local, t.internal, k);
        ExpectedCovered(self, peer, t, v, k);
        ExpectedCovered(self, peer, t, w, k);
      }
      if k in w {
        assert Expected(self, peer, t.local, t.internal, k);
        ExpectedCovered(self, peer, t, v, k);
      }
    }
  }

  lemma ExpectedCovered(self: string, peer: string, t: RouteTable, v: View, k: RouteKey)
    requires Covers(self, peer, t.local, t.internal, v) && Expected(self, peer, t.local, t.internal, k)
    ensures k in v && v[k] == if k.origin == self then [self] else [self] + Find(KeyOf, t.internal, k).value.nodePath
  {
    assert k.origin == self ==> k == RouteKey(k.name, self);
  }

  /** A view is exact when and only when it is what a full sync alone would give. */
  lemma ExactIsFullSync(cfg: NodeConfig, p: PeerRecord, t: RouteTable, v: View)
    requires cfg.policy.NoPolicy? && WellFormed(cfg.name, t) && OwnFree(cfg.name, t.internal)
    ensures Exactly(cfg.name, PeerName(p), t, v) <==> v == HeardAll(map[], FullSync(cfg, p, t))
  {
    SyncIsExact(cfg, p, t, map[]);
    if Exactly(cfg.name, PeerName(p), t, v) {
      ExactViewsEqual(cfg.name, PeerName(p), t, v, HeardAll(map[], FullSync(cfg, p, t)));
    }
  }

  // -------------------------------------------------------------------------
  // What a report does to one key
  // -------------------------------------------------------------------------

  function KeyChanged(self: string, c: RouteChange): RouteKey {
    match c.x case OfLocal(ch) => RouteKey(ch.name, self) case OfPeer(r) => KeyOf(r)
  }

  /** The change is told to `peer`. */
  predicate ToldTo(peer: string, c: RouteChange) {
    c.x.OfPeer? ==> Via(c.x.ir) != peer && peer !in c.x.ir.nodePath
  }

  /** The change leaves a route a full sync to `peer` would advertise: it is no removal, and the route is a local one or a
      fresh one that may pass. */
  predicate LeavesRoute(peer: string, c: RouteChange) {
    !c.Removed? && ToldTo(peer, c) && (c.x.OfPeer? ==> !c.x.ir.isStale)
  }

  function LastChange(self: string, cs: seq<RouteChange>, k: RouteKey): Option<RouteChange> {
    if |cs| == 0 then None
    else
      var later := LastChange(self, cs[1..], k);
      if later.Some? then later else if KeyChanged(self, cs[0]) == k then Some(cs[0]) else None
  }

  /** Whether hearing the report leaves an entry for `k`, given whether there was one. */
  predicate EntryLeft(self: string, peer: string, cs: seq<RouteChange>, k: RouteKey, had: bool) {
    if |cs| == 0 then had
    else EntryLeft(self, peer, cs[1..], k, if KeyChanged(self, cs[0]) == k && ToldTo(peer, cs[0]) then !cs[0].Removed? else had)
  }

  lemma ItemEntry(cfg: NodeConfig, p: PeerRecord, c: RouteChange, v: View, k: RouteKey)
    requires cfg.policy.NoPolicy?
    ensures k in HeardAll(v, ItemFor(cfg, p, c)) <==>
            if KeyChanged(cfg.name, c) == k && ToldTo(PeerName(p), c) then !c.Removed? else k in v
  {
    var items := ItemFor(cfg, p, c);
    if |items| > 0 {
      assert items == [items[0]];
      HeardOne(v, items[0]);
    }
  }

  lemma {:induction false} EntryLeftIs(cfg: NodeConfig, p: PeerRecord, cs: seq<RouteChange>, v: View, k: RouteKey)
    requires cfg.policy.NoPolicy?
    ensures k in HeardAll(v, ItemsFor(cfg, p, cs)) <==> EntryLeft(cfg.name, PeerName(p), cs, k, k in v)
    decreases cs
  {
    if |cs| > 0 {
      var mid := HeardAll(v, ItemFor(cfg, p, cs[0]));
      HeardAppend(v, ItemFor(cfg, p, cs[0]), ItemsFor(cfg, p, cs[1..]));
      ItemEntry(cfg, p, cs[0], v, k);
      EntryLeftIs(cfg, p, cs[1..], mid, k);
    }
  }

  lemma EditExpected(self: string, peer: string, c: RouteChange, chs: seq<DataChannel>, rs: seq<InternalRoute>, k: RouteKey)
    requires Proper(self, c, chs, rs) && OwnFree(self, rs)
    ensures Expected(self, peer, LocalEdit(c, chs), PeerEdit(c, rs), k)
            == if KeyChanged(self, c) == k then LeavesRoute(peer, c) else Expected(self, peer, chs, rs, k)
  {
    match c.x
    case OfLocal(ch) =>
      var d := if c.Added? then Added(ch) else if c.Updated? then Updated(ch) else Removed(ch);
      FindApply(ChannelName, d, chs, k.name);
    case OfPeer(r) =>
      var d := if c.Added? then Added(r) else if c.Updated? then Updated(r) else Removed(r);
      FindApply(KeyOf, d, rs, k);
  }

  /** The last change of a key decides whether it is to be advertised. */
  lemma {:induction false} ExpectedAfter(self: string, peer: string, cs: seq<RouteChange>, chs: seq<DataChannel>, rs: seq<InternalRoute>, k: RouteKey)
    requires ProperAll(self, cs, chs, rs) && OwnFree(self, rs)
    ensures var c := LastChange(self, cs, k);
            Expected(self, peer, Fold(ChannelName, LocalDeltas(cs), chs), Fold(KeyOf, PeerDeltas(cs), rs), k)
            == if c.Some? then LeavesRoute(peer, c.value) else Expected(self, peer, chs, rs, k)
    decreases cs
  {
    if |cs| > 0 {
      EditsAreFolds(cs, chs, rs);
      EditOrigins(self, cs[0], rs);
      EditExpected(self, peer, cs[0], chs, rs, k);
      ExpectedAfter(self, peer, cs[1..], LocalEdit(cs[0], chs), PeerEdit(cs[0], rs), k);
    }
  }

  lemma {:induction false} UnchangedEntry(self: string, peer: string, cs: seq<RouteChange>, k: RouteKey, had: bool)
    requires LastChange(self, cs, k) == None
    ensures EntryLeft(self, peer, cs, k, had) == had
  {
    if |cs| > 0 {
      UnchangedEntry(self, peer, cs[1..], k, had);
    }
  }

  /** For every key the report changes: its last change leaves a route to advertise, or the view keeps no entry for it. */
  ghost predicate Clean(self: string, peer: string, cs: seq<RouteChange>, v: View) {
    forall k :: CleanKey(self, peer, cs, v, k)
  }

  predicate CleanKey(self: string, peer: string, cs: seq<RouteChange>, v: View, k: RouteKey) {
    var c := LastChange(self, cs, k);
    c.Some? ==> LeavesRoute(peer, c.value) || !EntryLeft(self, peer, cs, k, k in v)
  }

  /** Hearing a report on an exact view brings no excess exactly when the report is clean. */
  lemma ReportExact(cfg: NodeConfig, p: PeerRecord, cs: seq<RouteChange>, chs: seq<DataChannel>, rs: seq<InternalRoute>, v: View)
    requires cfg.policy.NoPolicy? && ProperAll(cfg.name, cs, chs, rs) && OwnFree(cfg.name, rs)
    requires NoExcess(cfg.name, PeerName(p), chs, rs, v)
    ensures NoExcess(cfg.name, PeerName(p), Fold(ChannelName, LocalDeltas(cs), chs), Fold(KeyOf, PeerDeltas(cs), rs), HeardAll(v, ItemsFor(cfg, p, cs)))
            <==> Clean(cfg.name, PeerName(p), cs, v)
  {
    var self, peer, w := cfg.name, PeerName(p), HeardAll(v, ItemsFor(cfg, p, cs));
    var chs', rs' := Fold(ChannelName, LocalDeltas(cs), chs), Fold(KeyOf, PeerDeltas(cs), rs);
    forall k ensures (k in w ==> Expected(self, peer, chs', rs', k)) <==> CleanKey(self, peer, cs, v, k) {
      EntryLeftIs(cfg, p, cs, v, k);
      ExpectedAfter(self, peer, cs, chs, rs, k);
      if LastChange(self, cs, k) == None {
        UnchangedEntry(self, peer, cs, k, k in v);
      }
    }
  }

  // -------------------------------------------------------------------------
  // One dispatch, then a session
  // -------------------------------------------------------------------------

  lemma ExpectedUpToPorts(self: string, peer: string, t: RouteTable, u: RouteTable, k: RouteKey)
    requires SameButPorts(t, u)
    ensures Expected(self, peer, t.local, t.internal, k) == Expected(self, peer, u.local, u.internal, k)
  {
    SameNameIndex(t.local, u.local, k.name);
    SameKeyIndex(t.internal, u.internal, k);
    var i := IndexOf(KeyOf, t.internal, k);
    if i >= 0 {
      var r, q := t.internal[i], u.internal[i];
      assert Core(r) == Core(q);
      assert Via(Core(r)) == Via(Core(q)) && Core(r).nodePath == Core(q).nodePath && Core(r).isStale == Core(q).isStale;
    }
  }

  lemma NoExcessUpToPorts(self: string, peer: string, t: RouteTable, u: RouteTable, v: View)
    requires SameButPorts(t, u)
    ensures NoExcess(self, peer, t.local, t.internal, v) <==> NoExcess(self, peer, u.local, u.internal, v)
  {
    forall k ensures Expected(self, peer, t.local, t.internal, k) == Expected(self, peer, u.local, u.internal, k) {
      ExpectedUpToPorts(self, peer, t, u, k);
    }
  }

  /** What a dispatch other than a connect does to the peer's view is what hearing the planned report does. */
  lemma DispatchHeard(cfg: NodeConfig, s: BusState, i: Input, peer: string, v: View) returns (p: PeerRecord)
    requires cfg.policy.NoPolicy? && WellFormed(cfg.name, s.table) && peer in i.up && !i.action.InternalProtocolConnected?
    requires ConnectedTo(Dispatched(cfg, s, i.action, i.clock, i.up).state.table, peer)
    ensures PeerName(p) == peer
    ensures HeardAll(v, ItemsTo(peer, Dispatched(cfg, s, i.action, i.clock, i.up).sends))
            == HeardAll(v, ItemsFor(cfg, p, Planned(cfg.name, i.action, s.table, i.clock).changes))
  {
    var o, ribPlan := Dispatched(cfg, s, i.action, i.clock, i.up), Planned(cfg.name, i.action, s.table, i.clock);
    DeltasAreExact(cfg.name, i.action, s.table, i.clock);
    if LacksToken(i.action) || !ribPlan.changed {
      KeepalivesTellNothing(peer, i.action, s.table, s.sent, i.up);
      assert ribPlan.changes == [];
      p :| p in o.state.table.peers && PeerName(p) == peer && p.status == Connected;
    } else {
      var plan := PlanPorts(ribPlan, s.pool);
      DispatchKeepsWellFormed(cfg, s, i.action, i.clock, i.up);
      p :| p in plan.next.peers && PeerName(p) == peer && p.status == Connected;
      DispatchTells(cfg, i.action, plan, s.sent, i.up, p);
      StampingKeepsRoutes(ribPlan, s.pool);
      HeardUpToPorts(cfg, p, plan.changes, ribPlan.changes, v);
    }
  }

  lemma PlanReport(cfg: NodeConfig, t: RouteTable, a: Action, clock: int)
    requires Sound(cfg, t) && Originated(cfg.name, a)
    ensures var plan := Planned(cfg.name, a, t, clock);
            && ProperAll(cfg.name, plan.changes, t.local, t.internal)
            && Fold(ChannelName, LocalDeltas(plan.changes), t.local) == plan.next.local
            && Fold(KeyOf, PeerDeltas(plan.changes), t.internal) == plan.next.internal
  {
    DeltasAreExact(cfg.name, a, t, clock);
    PlanOwnFree(cfg.name, a, t, clock);
    SensibleIsProper(cfg.name, Planned(cfg.name, a, t, clock).changes, t.local, t.internal);
  }

  lemma CommittedExcess(cfg: NodeConfig, s: BusState, i: Input, peer: string, v: View)
    requires cfg.policy.NoPolicy? && WellFormed(cfg.name, s.table)
    ensures var t, next := Dispatched(cfg, s, i.action, i.clock, i.up).state.table, Planned(cfg.name, i.action, s.table, i.clock).next;
            NoExcess(cfg.name, peer, t.local, t.internal, v) <==> NoExcess(cfg.name, peer, next.local, next.internal, v)
  {
    TableAfter(cfg, s, i.action, i.clock, i.up);
    var t, next := Dispatched(cfg, s, i.action, i.clock, i.up).state.table, Planned(cfg.name, i.action, s.table, i.clock).next;
    if LacksToken(i.action) {
      assert next.local == s.table.local && next.internal == s.table.internal;
    } else {
      NoExcessUpToPorts(cfg.name, peer, t, next, v);
    }
  }

  /** While the peer stays connected, an exact view stays exact through a dispatch exactly when the dispatch reports
      cleanly. */
  lemma DispatchExactIff(cfg: NodeConfig, s: BusState, i: Input, peer: string, v: View)
    requires cfg.policy.NoPolicy? && Sound(cfg, s.table) && Originated(cfg.name, i.action) && peer in i.up
    requires Exactly(cfg.name, peer, s.table, v)
    requires ConnectedTo(Dispatched(cfg, s, i.action, i.clock, i.up).state.table, peer)
    ensures var o := Dispatched(cfg, s, i.action, i.clock, i.up);
            Exactly(cfg.name, peer, o.state.table, HeardAll(v, ItemsTo(peer, o.sends)))
            <==> Clean(cfg.name, peer, Planned(cfg.name, i.action, s.table, i.clock).changes, v)
  {
    DispatchCovered(cfg, s, i, peer, v);
    if i.action.InternalProtocolConnected? {
      ConnectExact(cfg, s, i, peer, v);
    } else {
      var p := DispatchHeard(cfg, s, i, peer, v);
      var cs := Planned(cfg.name, i.action, s.table, i.clock).changes;
      PlanReport(cfg, s.table, i.action, i.clock);
      ReportExact(cfg, p, cs, s.table.local, s.table.internal, v);
      CommittedExcess(cfg, s, i, peer, HeardAll(v, ItemsFor(cfg, p, cs)));
    }
  }

  /** A connect reports nothing and keeps an exact view exact. */
  lemma ConnectExact(cfg: NodeConfig, s: BusState, i: Input, peer: string, v: View)
    requires cfg.policy.NoPolicy? && Sound(cfg, s.table) && i.action.InternalProtocolConnected? && peer in i.up
    requires NoExcess(cfg.name, peer, s.table.local, s.table.internal, v)
    requires ConnectedTo(Dispatched(cfg, s, i.action, i.clock, i.up).state.table, peer)
    ensures var o := Dispatched(cfg, s, i.action, i.clock, i.up);
            NoExcess(cfg.name, peer, o.state.table.local, o.state.table.internal, HeardAll(v, ItemsTo(peer, o.sends)))
    ensures Clean(cfg.name, peer, Planned(cfg.name, i.action, s.table, i.clock).changes, v)
    ensures i.action.info.name == peer ==>
              var o := Dispatched(cfg, s, i.action, i.clock, i.up); Exactly(cfg.name, peer, o.state.table, HeardAll(v, ItemsTo(peer, o.sends)))
  {
    var o, ribPlan := Dispatched(cfg, s, i.action, i.clock, i.up), Planned(cfg.name, i.action, s.table, i.clock);
    DispatchSound(cfg, s, i);
    CommittedExcess(cfg, s, i, peer, v);
    if ribPlan.changed {
      var plan := PlanPorts(ribPlan, s.pool);
      var p :| p in plan.next.peers && PeerName(p) == peer && p.status == Connected;
      ConnectTells(cfg, i.action, plan, s.sent, i.up, p);
      SyncIsExact(cfg, p, plan.next, v);
    }
  }

  /** The view, hearing all it is sent, is exact after every dispatch. */
  ghost predicate ExactThroughout(cfg: NodeConfig, s: BusState, inputs: seq<Input>, peer: string, v: View)
    decreases inputs
  {
    && Exactly(cfg.name, peer, s.table, v)
    && (|inputs| > 0 ==>
          var o := Dispatched(cfg, s, inputs[0].action, inputs[0].clock, inputs[0].up);
          ExactThroughout(cfg, o.state, inputs[1..], peer, HeardAll(v, ItemsTo(peer, o.sends))))
  }

  /** Every dispatch reports cleanly to the view as it then is. */
  ghost predicate CleanThroughout(cfg: NodeConfig, s: BusState, inputs: seq<Input>, peer: string, v: View)
    decreases inputs
  {
    |inputs| > 0 ==>
      var o := Dispatched(cfg, s, inputs[0].action, inputs[0].clock, inputs[0].up);
      && Clean(cfg.name, peer, Planned(cfg.name, inputs[0].action, s.table, inputs[0].clock).changes, v)
      && CleanThroughout(cfg, o.state, inputs[1..], peer, HeardAll(v, ItemsTo(peer, o.sends)))
  }

  lemma {:induction false} SessionExactIff(cfg: NodeConfig, s: BusState, inputs: seq<Input>, peer: string, v: View)
    requires cfg.policy.NoPolicy? && Sound(cfg, s.table) && StaysConnected(cfg, s, inputs, peer)
    requires Exactly(cfg.name, peer, s.table, v)
    ensures ExactThroughout(cfg, s, inputs, peer, v) <==> CleanThroughout(cfg, s, inputs, peer, v)
    decreases inputs
  {
    if |inputs| > 0 {
      var o := Dispatched(cfg, s, inputs[0].action, inputs[0].clock, inputs[0].up);
      DispatchExactIff(cfg, s, inputs[0], peer, v);
      DispatchSound(cfg, s, inputs[0]);
      var w := HeardAll(v, ItemsTo(peer, o.sends));
      if Exactly(cfg.name, peer, o.state.table, w) {
        SessionExactIff(cfg, o.state, inputs[1..], peer, w);
      }
    }
  }

  /** A session: after its connect the view is the full sync, and it stays the full sync through every later dispatch
      exactly when each of them reports cleanly. */
  lemma DeltasAreFullSyncIff(cfg: NodeConfig, s: BusState, connect: Input, inputs: seq<Input>, peer: string)
    requires cfg.policy.NoPolicy? && Sound(cfg, s.table) && connect.action.InternalProtocolConnected? && connect.action.info.name == peer
    requires StaysConnected(cfg, s, [connect] + inputs, peer)
    ensures var o := Dispatched(cfg, s, connect.action, connect.clock, connect.up);
            var v := HeardAll(map[], ItemsTo(peer, o.sends));
            && Exactly(cfg.name, peer, o.state.table, v)
            && (ExactThroughout(cfg, o.state, inputs, peer, v) <==> CleanThroughout(cfg, o.state, inputs, peer, v))
  {
    var o := Dispatched(cfg, s, connect.action, connect.clock, connect.up);
    assert ([connect] + inputs)[0] == connect && ([connect] + inputs)[1..] == inputs;
    ConnectExact(cfg, s, connect, peer, map[]);
    DispatchSound(cfg, s, connect);
    SessionExactIff(cfg, o.state, inputs, peer, HeardAll(map[], ItemsTo(peer, o.sends)));
  }

  // -------------------------------------------------------------------------
  // Routes left behind
  // -------------------------------------------------------------------------

  lemma DispatchEntry(cfg: NodeConfig, s: BusState, i: Input, peer: string, v: View, k: RouteKey)
    requires cfg.policy.NoPolicy? && WellFormed(cfg.name, s.table) && peer in i.up && !i.action.InternalProtocolConnected?
    requires ConnectedTo(Dispatched(cfg, s, i.action, i.clock, i.up).state.table, peer)
    ensures k in HeardAll(v, ItemsTo(peer, Dispatched(cfg, s, i.action, i.clock, i.up).sends))
            <==> EntryLeft(cfg.name, peer, Planned(cfg.name, i.action, s.table, i.clock).changes, k, k in v)
  {
    var p := DispatchHeard(cfg, s, i, peer, v);
    EntryLeftIs(cfg, p, Planned(cfg.name, i.action, s.table, i.clock).changes, v, k);
  }

  /** One item, seen through lookups: what it reports and what it leaves. */
  lemma OneItem(self: string, info: PeerInfo, u: UpdateItem, t: RouteTable, clock: int)
    ensures var plan, found := Planned(self, InternalProtocolUpdate(info, [u]), t, clock), Find(KeyOf, t.internal, ItemKey(u));
            && (u.verb.Add? && self !in u.nodePath && found.None? ==>
                  plan.changes == [Added(OfPeer(Learned(info, u)))] && Find(KeyOf, plan.next.internal, ItemKey(u)) == Some(Learned(info, u)))
            && (u.verb.Add? && self !in u.nodePath && found.Some? && |u.nodePath| < |found.value.nodePath| ==>
                  plan.changes == [Updated(OfPeer(Learned(info, u)))] && Find(KeyOf, plan.next.internal, ItemKey(u)) == Some(Learned(info, u)))
            && (u.verb.Remove? && found.Some? ==>
                  plan.changes == [Removed(OfPeer(found.value))] && Find(KeyOf, plan.next.internal, ItemKey(u)) == None)
  {
    assert [u][1..] == [];
    UpdatedRoutesAre(self, info, [u], t, clock);
    FindStep(self, info, u, t.internal, ItemKey(u));
    assert ItemLoop(self, info, [u], t.internal).routes == ItemStep(self, info, u, t.internal).routes;
  }

  /** After an update by `info`, the committed route under a key is the planned one up to its port, and sessions are as before. */
  lemma UpdateCommitted(cfg: NodeConfig, s: BusState, info: PeerInfo, us: seq<UpdateItem>, clock: int, up: set<string>, peer: string, k: RouteKey)
    requires cfg.policy.NoPolicy? && WellFormed(cfg.name, s.table) && ConnectedTo(s.table, peer)
    ensures var a := InternalProtocolUpdate(info, us);
            var t, next := Dispatched(cfg, s, a, clock, up).state.table, Planned(cfg.name, a, s.table, clock).next;
            && WellFormed(cfg.name, t) && ConnectedTo(t, peer)
            && (Find(KeyOf, t.internal, k).Some? <==> Find(KeyOf, next.internal, k).Some?)
            && (Find(KeyOf, t.internal, k).Some? ==>
                  var r, q := Find(KeyOf, t.internal, k).value, Find(KeyOf, next.internal, k).value;
                  r.nodePath == q.nodePath && Via(r) == Via(q) && r.isStale == q.isStale)
  {
    var a := InternalProtocolUpdate(info, us);
    var t, next := Dispatched(cfg, s, a, clock, up).state.table, Planned(cfg.name, a, s.table, clock).next;
    DispatchKeepsWellFormed(cfg, s, a, clock, up);
    TableAfter(cfg, s, a, clock, up);
    SameKeyIndex(t.internal, next.internal, k);
    var i := IndexOf(KeyOf, t.internal, k);
    if i >= 0 {
      var r, q := t.internal[i], next.internal[i];
      assert Core(r) == Core(q);
      assert Via(Core(r)) == Via(Core(q)) && Core(r).nodePath == Core(q).nodePath && Core(r).isStale == Core(q).isStale;
    }
    SessionKept(cfg, s, info, us, clock, up, peer);
  }

  lemma SessionKept(cfg: NodeConfig, s: BusState, info: PeerInfo, us: seq<UpdateItem>, clock: int, up: set<string>, peer: string)
    requires cfg.policy.NoPolicy? && ConnectedTo(s.table, peer)
    ensures ConnectedTo(Dispatched(cfg, s, InternalProtocolUpdate(info, us), clock, up).state.table, peer)
  {
    Flooding.UpdatedTable(cfg, s, info, us, clock, up);
    assert peer in Flooding.ConnectedNames(s.table);
  }

  /** Another peer offers a route, then `peer` offers a shorter path to it. */
  function Takeover(other: PeerInfo, peer: PeerInfo, u: UpdateItem, w: UpdateItem, c: int): seq<Input> {
    [Input(InternalProtocolUpdate(other, [u]), c, {peer.name}), Input(InternalProtocolUpdate(peer, [w]), c, {peer.name})]
  }

  /** `peer` takes its offer back. */
  function Withdrawal(peer: PeerInfo, w: UpdateItem, c: int): seq<Input> {
    [Input(InternalProtocolUpdate(peer, [w.(verb := Remove)]), c, {peer.name})]
  }

  /** The input: two offers of one key by two peers, neither a loop, the second shorter, the first such that it may pass. */
  ghost predicate TakesOver(cfg: NodeConfig, t: RouteTable, other: PeerInfo, peer: PeerInfo, u: UpdateItem, w: UpdateItem) {
    && other.name != peer.name && ConnectedTo(t, peer.name)
    && u.verb.Add? && w.verb.Add? && ItemKey(u) == ItemKey(w) && cfg.name !in u.nodePath && cfg.name !in w.nodePath
    && peer.name !in u.nodePath && |w.nodePath| < |u.nodePath| && u.originNode != cfg.name
    && Find(KeyOf, t.internal, ItemKey(u)).None?
  }

  lemma TakeoverFirst(cfg: NodeConfig, s: BusState, other: PeerInfo, peer: PeerInfo, u: UpdateItem, w: UpdateItem, c: int, v: View)
    requires cfg.policy.NoPolicy? && WellFormed(cfg.name, s.table) && TakesOver(cfg, s.table, other, peer, u, w)
    ensures var o := Dispatched(cfg, s, InternalProtocolUpdate(other, [u]), c, {peer.name});
            && WellFormed(cfg.name, o.state.table) && ConnectedTo(o.state.table, peer.name)
            && Find(KeyOf, o.state.table.internal, ItemKey(u)).Some?
            && |w.nodePath| < |Find(KeyOf, o.state.table.internal, ItemKey(u)).value.nodePath|
            && ItemKey(u) in HeardAll(v, ItemsTo(peer.name, o.sends))
  {
    OneItem(cfg.name, other, u, s.table, c);
    UpdateCommitted(cfg, s, other, [u], c, {peer.name}, peer.name, ItemKey(u));
    DispatchEntry(cfg, s, Input(InternalProtocolUpdate(other, [u]), c, {peer.name}), peer.name, v, ItemKey(u));
    OneEntry(cfg.name, peer.name, Added(OfPeer(Learned(other, u))), ItemKey(u) in v);
  }

  lemma OneEntry(self: string, peer: string, c: RouteChange, had: bool)
    ensures EntryLeft(self, peer, [c], KeyChanged(self, c), had) == if ToldTo(peer, c) then !c.Removed? else had
  {
    assert [c][1..] == [];
  }

  lemma TakeoverSecond(cfg: NodeConfig, s: BusState, peer: PeerInfo, w: UpdateItem, c: int, v: View)
    requires cfg.policy.NoPolicy? && WellFormed(cfg.name, s.table) && ConnectedTo(s.table, peer.name)
    requires w.verb.Add? && cfg.name !in w.nodePath && w.originNode != cfg.name && ItemKey(w) in v
    requires Find(KeyOf, s.table.internal, ItemKey(w)).Some? && |w.nodePath| < |Find(KeyOf, s.table.internal, ItemKey(w)).value.nodePath|
    ensures var o := Dispatched(cfg, s, InternalProtocolUpdate(peer, [w]), c, {peer.name});
            && WellFormed(cfg.name, o.state.table) && ConnectedTo(o.state.table, peer.name)
            && Find(KeyOf, o.state.table.internal, ItemKey(w)).Some? && Via(Find(KeyOf, o.state.table.internal, ItemKey(w)).value) == peer.name
            && !Expected(cfg.name, peer.name, o.state.table.local, o.state.table.internal, ItemKey(w))
            && ItemKey(w) in HeardAll(v, ItemsTo(peer.name, o.sends))
  {
    OneItem(cfg.name, peer, w, s.table, c);
    UpdateCommitted(cfg, s, peer, [w], c, {peer.name}, peer.name, ItemKey(w));
    DispatchEntry(cfg, s, Input(InternalProtocolUpdate(peer, [w]), c, {peer.name}), peer.name, v, ItemKey(w));
    OneEntry(cfg.name, peer.name, Updated(OfPeer(Learned(peer, w))), true);
  }

  lemma TakeoverThird(cfg: NodeConfig, s: BusState, peer: PeerInfo, x: UpdateItem, c: int, v: View)
    requires cfg.policy.NoPolicy? && WellFormed(cfg.name, s.table) && ConnectedTo(s.table, peer.name)
    requires x.verb.Remove? && ItemKey(x) in v
    requires Find(KeyOf, s.table.internal, ItemKey(x)).Some? && Via(Find(KeyOf, s.table.internal, ItemKey(x)).value) == peer.name
    ensures var o := Dispatched(cfg, s, InternalProtocolUpdate(peer, [x]), c, {peer.name});
            Find(KeyOf, o.state.table.internal, ItemKey(x)).None? && ItemKey(x) in HeardAll(v, ItemsTo(peer.name, o.sends))
  {
    var r := Find(KeyOf, s.table.internal, ItemKey(x)).value;
    OneItem(cfg.name, peer, x, s.table, c);
    UpdateCommitted(cfg, s, peer, [x], c, {peer.name}, peer.name, ItemKey(x));
    DispatchEntry(cfg, s, Input(InternalProtocolUpdate(peer, [x]), c, {peer.name}), peer.name, v, ItemKey(x));
    OneEntry(cfg.name, peer.name, Removed(OfPeer(r)), true);
  }

  lemma ToldFirst(cfg: NodeConfig, s: BusState, i: Input, rest: seq<Input>, peer: string, v: View)
    ensures var o := Dispatched(cfg, s, i.action, i.clock, i.up);
            && RunBus(cfg, s, [i] + rest) == RunBus(cfg, o.state, rest)
            && HeardAll(v, Told(cfg, s, [i] + rest, peer)) == HeardAll(HeardAll(v, ItemsTo(peer, o.sends)), Told(cfg, o.state, rest, peer))
  {
    assert ([i] + rest)[1..] == rest;
    var o := Dispatched(cfg, s, i.action, i.clock, i.up);
    HeardAppend(v, ItemsTo(peer, o.sends), Told(cfg, o.state, rest, peer));
  }

  lemma TwoHeard(cfg: NodeConfig, s: BusState, i1: Input, i2: Input, rest: seq<Input>, peer: string, v: View)
    ensures var o1 := Dispatched(cfg, s, i1.action, i1.clock, i1.up);
            var o2 := Dispatched(cfg, o1.state, i2.action, i2.clock, i2.up);
            var v2 := HeardAll(HeardAll(v, ItemsTo(peer, o1.sends)), ItemsTo(peer, o2.sends));
            && RunBus(cfg, s, [i1] + ([i2] + rest)) == RunBus(cfg, o2.state, rest)
            && HeardAll(v, Told(cfg, s, [i1] + ([i2] + rest), peer)) == HeardAll(v2, Told(cfg, o2.state, rest, peer))
  {
    var o1 := Dispatched(cfg, s, i1.action, i1.clock, i1.up);
    ToldFirst(cfg, s, i1, [i2] + rest, peer, v);
    ToldFirst(cfg, o1.state, i2, rest, peer, HeardAll(v, ItemsTo(peer, o1.sends)));
  }

  lemma TwoInputs(cfg: NodeConfig, s: BusState, i1: Input, i2: Input, peer: string, v: View)
    ensures var o1 := Dispatched(cfg, s, i1.action, i1.clock, i1.up);
            var o2 := Dispatched(cfg, o1.state, i2.action, i2.clock, i2.up);
            && RunBus(cfg, s, [i1] + ([i2] + [])) == o2.state
            && HeardAll(v, Told(cfg, s, [i1] + ([i2] + []), peer)) == HeardAll(HeardAll(v, ItemsTo(peer, o1.sends)), ItemsTo(peer, o2.sends))
  {
    TwoHeard(cfg, s, i1, i2, [], peer, v);
  }

  lemma ThreeInputs(cfg: NodeConfig, s: BusState, i1: Input, i2: Input, i3: Input, peer: string, v: View)
    ensures var o1 := Dispatched(cfg, s, i1.action, i1.clock, i1.up);
            var o2 := Dispatched(cfg, o1.state, i2.action, i2.clock, i2.up);
            var o3 := Dispatched(cfg, o2.state, i3.action, i3.clock, i3.up);
            && RunBus(cfg, s, [i1] + ([i2] + ([i3] + []))) == o3.state
            && HeardAll(v, Told(cfg, s, [i1] + ([i2] + ([i3] + [])), peer))
               == HeardAll(HeardAll(HeardAll(v, ItemsTo(peer, o1.sends)), ItemsTo(peer, o2.sends)), ItemsTo(peer, o3.sends))
  {
    var o1 := Dispatched(cfg, s, i1.action, i1.clock, i1.up);
    var o2 := Dispatched(cfg, o1.state, i2.action, i2.clock, i2.up);
    TwoHeard(cfg, s, i1, i2, [i3] + [], peer, v);
    ToldFirst(cfg, o2.state, i3, [], peer, HeardAll(HeardAll(v, ItemsTo(peer, o1.sends)), ItemsTo(peer, o2.sends)));
  }

  /** The three dispatches of a takeover, one after the other. */
  lemma TakeoverSteps(cfg: NodeConfig, s: BusState, other: PeerInfo, peer: PeerInfo, u: UpdateItem, w: UpdateItem, c: int, v: View)
    requires cfg.policy.NoPolicy? && WellFormed(cfg.name, s.table) && TakesOver(cfg, s.table, other, peer, u, w)
    ensures var k, up := ItemKey(u), {peer.name};
            var o1 := Dispatched(cfg, s, InternalProtocolUpdate(other, [u]), c, up);
            var o2 := Dispatched(cfg, o1.state, InternalProtocolUpdate(peer, [w]), c, up);
            var o3 := Dispatched(cfg, o2.state, InternalProtocolUpdate(peer, [w.(verb := Remove)]), c, up);
            var v2 := HeardAll(HeardAll(v, ItemsTo(peer.name, o1.sends)), ItemsTo(peer.name, o2.sends));
            && k in v2 && !Expected(cfg.name, peer.name, o2.state.table.local, o2.state.table.internal, k)
            && k in HeardAll(v2, ItemsTo(peer.name, o3.sends)) && Find(KeyOf, o3.state.table.internal, k).None?
  {
    var o1 := Dispatched(cfg, s, InternalProtocolUpdate(other, [u]), c, {peer.name});
    TakeoverFirst(cfg, s, other, peer, u, w, c, v);
    var v1 := HeardAll(v, ItemsTo(peer.name, o1.sends));
    TakeoverSecond(cfg, o1.state, peer, w, c, v1);
    var o2 := Dispatched(cfg, o1.state, InternalProtocolUpdate(peer, [w]), c, {peer.name});
    TakeoverThird(cfg, o2.state, peer, w.(verb := Remove), c, HeardAll(v1, ItemsTo(peer.name, o2.sends)));
  }

  /** In any state: after the takeover the peer still lists the first path, which a full sync would no longer send; after
      the withdrawal it still does, although the node holds nothing for the key. */
  lemma RouteLingers(cfg: NodeConfig, s: BusState, other: PeerInfo, peer: PeerInfo, u: UpdateItem, w: UpdateItem, c: int, v: View)
    requires cfg.policy.NoPolicy? && WellFormed(cfg.name, s.table) && TakesOver(cfg, s.table, other, peer, u, w)
    ensures var is2, is3, k := Takeover(other, peer, u, w, c), Takeover(other, peer, u, w, c) + Withdrawal(peer, w, c), ItemKey(u);
            && k in HeardAll(v, Told(cfg, s, is2, peer.name))
            && !Expected(cfg.name, peer.name, RunBus(cfg, s, is2).table.local, RunBus(cfg, s, is2).table.internal, k)
            && k in HeardAll(v, Told(cfg, s, is3, peer.name))
            && Find(KeyOf, RunBus(cfg, s, is3).table.internal, k).None?
  {
    var i1, i2 := Input(InternalProtocolUpdate(other, [u]), c, {peer.name}), Input(InternalProtocolUpdate(peer, [w]), c, {peer.name});
    var i3 := Input(InternalProtocolUpdate(peer, [w.(verb := Remove)]), c, {peer.name});
    TakeoverSteps(cfg, s, other, peer, u, w, c, v);
    TwoInputs(cfg, s, i1, i2, peer.name, v);
    ThreeInputs(cfg, s, i1, i2, i3, peer.name, v);
    assert Takeover(other, peer, u, w, c) == [i1] + ([i2] + []);
    assert Takeover(other, peer, u, w, c) + Withdrawal(peer, w, c) == [i1] + ([i2] + ([i3] + []));
  }

  /** A configured and connected peer on a fresh node. */
  function Setup(peer: PeerInfo, c: int): seq<Input> {
    [Input(LocalPeerCreate(peer), c, {peer.name})] + ([Input(InternalProtocolConnected(peer), c, {peer.name})] + [])
  }

  lemma PlanCommits(cfg: NodeConfig, s: BusState, a: Action, c: int, up: set<string>, t: RouteTable)
    requires cfg.policy.NoPolicy? && !LacksToken(a) && s.pool == None
    requires Planned(cfg.name, a, s.table, c).changed && Planned(cfg.name, a, s.table, c).next == t
    ensures Dispatched(cfg, s, a, c, up).state.table == t && Dispatched(cfg, s, a, c, up).state.pool == None
  {
  }

  lemma SetupConnects(cfg: NodeConfig, peer: PeerInfo, c: int)
    requires cfg.policy.NoPolicy? && !LacksToken(LocalPeerCreate(peer))
    ensures var s := RunBus(cfg, BusState(EmptyTable, None, map[]), Setup(peer, c));
            WellFormed(cfg.name, s.table) && ConnectedTo(s.table, peer.name) && s.table.internal == []
  {
    var s0 := BusState(EmptyTable, None, map[]);
    var i1, i2 := Input(LocalPeerCreate(peer), c, {peer.name}), Input(InternalProtocolConnected(peer), c, {peer.name});
    RecoveryLimits.CreateOnly(cfg.name, peer, c);
    PlanCommits(cfg, s0, i1.action, c, i1.up, RecoveryLimits.Only(RecoveryLimits.Newcomer(peer)));
    var s1 := Dispatched(cfg, s0, i1.action, c, i1.up).state;
    RecoveryLimits.ConnectOnly(cfg.name, peer, c);
    PlanCommits(cfg, s1, i2.action, c, i2.up, RecoveryLimits.Only(RecoveryLimits.Live(peer, c)));
    TwoHeard(cfg, s0, i1, i2, [], peer.name, map[]);
    assert RecoveryLimits.Live(peer, c) in RecoveryLimits.Only(RecoveryLimits.Live(peer, c)).peers;
  }

  /** In particular on a fresh node with one connected peer. */
  lemma RouteLingersFromFresh(cfg: NodeConfig, other: PeerInfo, peer: PeerInfo, u: UpdateItem, w: UpdateItem, c: int, v: View)
    requires cfg.policy.NoPolicy? && !LacksToken(LocalPeerCreate(peer)) && other.name != peer.name
    requires u.verb.Add? && w.verb.Add? && ItemKey(u) == ItemKey(w) && cfg.name !in u.nodePath && cfg.name !in w.nodePath
    requires peer.name !in u.nodePath && |w.nodePath| < |u.nodePath| && u.originNode != cfg.name
    ensures var s := RunBus(cfg, BusState(EmptyTable, None, map[]), Setup(peer, c));
            var inputs := Takeover(other, peer, u, w, c) + Withdrawal(peer, w, c);
            && ItemKey(u) in HeardAll(v, Told(cfg, s, inputs, peer.name))
            && Find(KeyOf, RunBus(cfg, s, inputs).table.internal, ItemKey(u)).None?
  {
    SetupConnects(cfg, peer, c);
    RouteLingers(cfg, RunBus(cfg, BusState(EmptyTable, None, map[]), Setup(peer, c)), other, peer, u, w, c, v);
  }

  lemma {:induction false} NothingRemoved(self: string, peer: string, cs: seq<RouteChange>, k: RouteKey)
    requires forall c :: c in cs ==> !c.Removed?
    ensures EntryLeft(self, peer, cs, k, true)
  {
    if |cs| > 0 {
      assert cs[0] in cs && forall c :: c in cs[1..] ==> c in cs;
      NothingRemoved(self, peer, cs[1..], k);
    }
  }

  /** A transport failure elsewhere: the peer is sent the stale route again, or not told, and lists it either way; a full
      sync would leave it out. */
  lemma StaleRouteLingers(cfg: NodeConfig, s: BusState, failed: PeerInfo, c: int, peer: string, v: View, k: RouteKey)
    requires cfg.policy.NoPolicy? && WellFormed(cfg.name, s.table) && k in v && k.origin != cfg.name
    requires Find(PeerName, s.table.peers, failed.name).Some?
    requires Find(KeyOf, s.table.internal, k).Some? && Via(Find(KeyOf, s.table.internal, k).value) == failed.name
    requires ConnectedTo(Dispatched(cfg, s, InternalProtocolClose(failed, TRANSPORT_ERROR), c, {peer}).state.table, peer)
    ensures var o := Dispatched(cfg, s, InternalProtocolClose(failed, TRANSPORT_ERROR), c, {peer});
            && k in HeardAll(v, ItemsTo(peer, o.sends))
            && !Expected(cfg.name, peer, o.state.table.local, o.state.table.internal, k)
  {
    var a := InternalProtocolClose(failed, TRANSPORT_ERROR);
    DispatchEntry(cfg, s, Input(a, c, {peer}), peer, v, k);
    NothingRemoved(cfg.name, peer, Planned(cfg.name, a, s.table, c).changes, k);
    StaleIsUnexpected(cfg, s, failed, c, {peer}, peer, k);
  }

  lemma StaleIsUnexpected(cfg: NodeConfig, s: BusState, failed: PeerInfo, c: int, up: set<string>, peer: string, k: RouteKey)
    requires cfg.policy.NoPolicy? && k.origin != cfg.name && Find(PeerName, s.table.peers, failed.name).Some?
    requires Find(KeyOf, s.table.internal, k).Some? && Via(Find(KeyOf, s.table.internal, k).value) == failed.name
    ensures var t := Dispatched(cfg, s, InternalProtocolClose(failed, TRANSPORT_ERROR), c, up).state.table;
            !Expected(cfg.name, peer, t.local, t.internal, k)
  {
    var a := InternalProtocolClose(failed, TRANSPORT_ERROR);
    var next := PlanInternalProtocolClose(failed, TRANSPORT_ERROR, s.table).next;
    StaleFound(s.table.internal, failed.name, k);
    assert next.internal == StaleVia(s.table.internal, failed.name);
    TableAfter(cfg, s, a, c, up);
    assert Planned(cfg.name, a, s.table, c).next == next;
    ExpectedUpToPorts(cfg.name, peer, Dispatched(cfg, s, a, c, up).state.table, next, k);
  }

  lemma StaleFound(rs: seq<InternalRoute>, name: string, k: RouteKey)
    requires Find(KeyOf, rs, k).Some? && Via(Find(KeyOf, rs, k).value) == name
    ensures Find(KeyOf, StaleVia(rs, name), k).Some? && Find(KeyOf, StaleVia(rs, name), k).value.isStale
  {
    var marked := StaleVia(rs, name);
    assert forall i :: 0 <= i < |rs| ==> KeyOf(marked[i]) == KeyOf(rs[i]);
    IndexOfIs(KeyOf, marked, k, IndexOf(KeyOf, rs, k));
  }
}
