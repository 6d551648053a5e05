/** A connected peer that follows the deltas knows everything a full table sync would tell it. */
module IncrementalSync {
  import opened KeyedLists
  import opened RouteTypes
  import opened Rib
  import opened RibTheorems
  import opened BusSpec
  import opened PortErasure
  import opened DispatchFacts
  import opened PortAgreement

  /** What a peer has been told: the advertised path by route key. */
  type View = map<RouteKey, seq<string>>

  function Heard(v: View, u: UpdateItem): View {
    match u.verb
    case Add => v[ItemKey(u) := u.nodePath]
    case Remove => v - {ItemKey(u)}
  }

  function HeardAll(v: View, us: seq<UpdateItem>): View
    decreases us
  {
    if |us| == 0 then v else HeardAll(Heard(v, us[0]), us[1..])
  }

  lemma {:induction false} HeardAppend(v: View, us: seq<UpdateItem>, ws: seq<UpdateItem>)
    ensures HeardAll(v, us + ws) == HeardAll(HeardAll(v, us), ws)
    decreases us
  {
    if |us| == 0 {
      assert us + ws == ws;
    } else {
      assert (us + ws)[1..] == us[1..] + ws;
      HeardAppend(Heard(v, us[0]), us[1..], ws);
    }
  }

  lemma HeardOne(v: View, u: UpdateItem)
    ensures HeardAll(v, [u]) == Heard(v, u)
  {
    assert [u][1..] == [];
    assert HeardAll(Heard(v, u), []) == Heard(v, u);
  }

  /** The items of the update messages addressed to `peer`, in order. */
  function ItemsTo(peer: string, sends: seq<Send>): seq<UpdateItem> {
    if |sends| == 0 then []
    else (match sends[0]
          case SendUpdate(to, items) => if to == peer then items else []
          case _ => []) + ItemsTo(peer, sends[1..])
  }

  predicate Passable(r: InternalRoute, peer: string) {
    !r.isStale && Via(r) != peer && peer !in r.nodePath
  }

  /** `v` has, with its current path, every route a full sync to `peer` would advertise. */
  ghost predicate Covers(self: string, peer: string, local: seq<DataChannel>, internal: seq<InternalRoute>, v: View) {
    && (forall name :: Find(ChannelName, local, name).Some? ==> RouteKey(name, self) in v && v[RouteKey(name, self)] == [self])
    && (forall k :: Find(KeyOf, internal, k).Some? && Passable(Find(KeyOf, internal, k).value, peer) ==>
          k in v && v[k] == [self] + Find(KeyOf, internal, k).value.nodePath)
  }

  /** The predicate says what it should: the items of the full sync are in the view. */
  lemma CoversFullSync(cfg: NodeConfig, peer: PeerRecord, t: RouteTable, v: View, u: UpdateItem)
    requires cfg.policy.NoPolicy? && WellFormed(cfg.name, t) && Covers(cfg.name, PeerName(peer), t.local, t.internal, v)
    requires u in FullSync(cfg, peer, t)
    ensures u.verb == Add && ItemKey(u) in v && v[ItemKey(u)] == u.nodePath
  {
    if u in LocalItems(cfg, t.local) {
      var i :| 0 <= i < |t.local| && LocalItems(cfg, t.local)[i] == u;
      assert t.local[i] in t.local;
      assert Find(ChannelName, t.local, t.local[i].name).Some?;
    } else {
      InternalItemsMember(cfg, peer, t.internal, u);
      var r :| r in t.internal && Syncable(cfg, peer, r) && u == Advertised(cfg, Add, r);
      FindMember(KeyOf, t.internal, r);
    }
  }

  // -------------------------------------------------------------------------
  // One change
  // -------------------------------------------------------------------------

  function LocalEdit(c: RouteChange, chs: seq<DataChannel>): seq<DataChannel> {
    match c
    case Added(OfLocal(ch)) => Apply(ChannelName, Added(ch), chs)
    case Updated(OfLocal(ch)) => Apply(ChannelName, Updated(ch), chs)
    case Removed(OfLocal(ch)) => Apply(ChannelName, Removed(ch), chs)
    case _ => chs
  }

  function PeerEdit(c: RouteChange, rs: seq<InternalRoute>): seq<InternalRoute> {
    match c
    case Added(OfPeer(r)) => Apply(KeyOf, Added(r), rs)
    case Updated(OfPeer(r)) => Apply(KeyOf, Updated(r), rs)
    case Removed(OfPeer(r)) => Apply(KeyOf, Removed(r), rs)
    case _ => rs
  }

  /** Additions are of absent routes and updates of present ones, and no learned route claims this node as origin. */
  ghost predicate Proper(self: string, c: RouteChange, chs: seq<DataChannel>, rs: seq<InternalRoute>) {
    match c.x
    case OfLocal(ch) =>
      (c.Added? ==> Find(ChannelName, chs, ch.name).None?) && (c.Updated? ==> Find(ChannelName, chs, ch.name).Some?)
    case OfPeer(r) =>
      && (c.Added? ==> Find(KeyOf, rs, KeyOf(r)).None?) && (c.Updated? ==> Find(KeyOf, rs, KeyOf(r)).Some?)
      && r.originNode != self
  }

  lemma LocalChangeCovered(cfg: NodeConfig, p: PeerRecord, c: RouteChange, chs: seq<DataChannel>, rs: seq<InternalRoute>, v: View)
    requires cfg.policy.NoPolicy? && Covers(cfg.name, PeerName(p), chs, rs, v) && Proper(cfg.name, c, chs, rs)
    requires c.x.OfLocal? && forall r :: r in rs ==> r.originNode != cfg.name
    ensures Covers(cfg.name, PeerName(p), LocalEdit(c, chs), rs, HeardAll(v, ItemFor(cfg, p, c)))
  {
    var ch := c.x.ch;
    var u := ItemFor(cfg, p, c)[0];
    var v' := HeardAll(v, ItemFor(cfg, p, c));
    ItemTells(cfg, p, c, u);
    assert ItemFor(cfg, p, c) == [u];
    HeardOne(v, u);
    var d := if c.Added? then Added(ch) else if c.Updated? then Updated(ch) else Removed(ch);
    forall name | Find(ChannelName, LocalEdit(c, chs), name).Some?
      ensures RouteKey(name, cfg.name) in v' && v'[RouteKey(name, cfg.name)] == [cfg.name]
    {
      FindApply(ChannelName, d, chs, name);
    }
    forall k | Find(KeyOf, rs, k).Some? ensures k != ItemKey(u) {
      assert Find(KeyOf, rs, k).value in rs;
    }
  }

  lemma PeerChangeCovered(cfg: NodeConfig, p: PeerRecord, c: RouteChange, chs: seq<DataChannel>, rs: seq<InternalRoute>, v: View)
    requires cfg.policy.NoPolicy? && Covers(cfg.name, PeerName(p), chs, rs, v) && Proper(cfg.name, c, chs, rs)
    requires c.x.OfPeer?
    ensures Covers(cfg.name, PeerName(p), chs, PeerEdit(c, rs), HeardAll(v, ItemFor(cfg, p, c)))
  {
    var r := c.x.ir;
    var items := ItemFor(cfg, p, c);
    var v' := HeardAll(v, items);
    if |items| > 0 {
      ItemTells(cfg, p, c, items[0]);
      assert items == [items[0]];
      HeardOne(v, items[0]);
    }
    var d := if c.Added? then Added(r) else if c.Updated? then Updated(r) else Removed(r);
    forall k | Find(KeyOf, PeerEdit(c, rs), k).Some? && Passable(Find(KeyOf, PeerEdit(c, rs), k).value, PeerName(p))
      ensures k in v' && v'[k] == [cfg.name] + Find(KeyOf, PeerEdit(c, rs), k).value.nodePath
    {
      FindApply(KeyOf, d, rs, k);
    }
  }

  // -------------------------------------------------------------------------
  // A whole report
  // -------------------------------------------------------------------------

  ghost predicate ProperAll(self: string, cs: seq<RouteChange>, chs: seq<DataChannel>, rs: seq<InternalRoute>)
    decreases cs
  {
    |cs| > 0 ==> Proper(self, cs[0], chs, rs) && ProperAll(self, cs[1..], LocalEdit(cs[0], chs), PeerEdit(cs[0], rs))
  }

  lemma {:induction false} SensibleIsProper(self: string, cs: seq<RouteChange>, chs: seq<DataChannel>, rs: seq<InternalRoute>)
    requires Sensible(ChannelName, LocalDeltas(cs), chs) && Sensible(KeyOf, PeerDeltas(cs), rs)
    requires forall c :: c in cs && c.x.OfPeer? ==> c.x.ir.originNode != self
    ensures ProperAll(self, cs, chs, rs)
    decreases cs
  {
    if |cs| > 0 {
      var c := cs[0];
      assert c in cs;
      if c.x.OfLocal? {
        assert LocalDeltas(cs)[1..] == LocalDeltas(cs[1..]) && PeerDeltas(cs) == PeerDeltas(cs[1..]);
      } else {
        assert PeerDeltas(cs)[1..] == PeerDeltas(cs[1..]) && LocalDeltas(cs) == LocalDeltas(cs[1..]);
      }
      SensibleIsProper(self, cs[1..], LocalEdit(c, chs), PeerEdit(c, rs));
    }
  }

  lemma {:induction false} EditsAreFolds(cs: seq<RouteChange>, chs: seq<DataChannel>, rs: seq<InternalRoute>)
    requires |cs| > 0
    ensures Fold(ChannelName, LocalDeltas(cs), chs) == Fold(ChannelName, LocalDeltas(cs[1..]), LocalEdit(cs[0], chs))
    ensures Fold(KeyOf, PeerDeltas(cs), rs) == Fold(KeyOf, PeerDeltas(cs[1..]), PeerEdit(cs[0], rs))
  {
    if cs[0].x.OfLocal? {
      assert LocalDeltas(cs)[1..] == LocalDeltas(cs[1..]);
    } else {
      assert PeerDeltas(cs)[1..] == PeerDeltas(cs[1..]);
    }
  }

  lemma EditOrigins(self: string, c: RouteChange, rs: seq<InternalRoute>)
    requires (forall r :: r in rs ==> r.originNode != self) && (c.x.OfPeer? ==> c.x.ir.originNode != self)
    ensures forall r :: r in PeerEdit(c, rs) ==> r.originNode != self
  {
  }

  /** Following a report keeps the peer's view covering the table. */
  lemma {:induction false} ReportCovered(cfg: NodeConfig, p: PeerRecord, cs: seq<RouteChange>, chs: seq<DataChannel>, rs: seq<InternalRoute>, v: View)
    requires cfg.policy.NoPolicy? && Covers(cfg.name, PeerName(p), chs, rs, v) && ProperAll(cfg.name, cs, chs, rs)
    requires forall r :: r in rs ==> r.originNode != cfg.name
    ensures Covers(cfg.name, PeerName(p), Fold(ChannelName, LocalDeltas(cs), chs), Fold(KeyOf, PeerDeltas(cs), rs),
                   HeardAll(v, ItemsFor(cfg, p, cs)))
    decreases cs
  {
    if |cs| > 0 {
      var c := cs[0];
      EditsAreFolds(cs, chs, rs);
      HeardAppend(v, ItemFor(cfg, p, c), ItemsFor(cfg, p, cs[1..]));
      if c.x.OfLocal? {
        LocalChangeCovered(cfg, p, c, chs, rs, v);
      } else {
        PeerChangeCovered(cfg, p, c, chs, rs, v);
      }
      EditOrigins(cfg.name, c, rs);
      ReportCovered(cfg, p, cs[1..], LocalEdit(c, chs), PeerEdit(c, rs), HeardAll(v, ItemFor(cfg, p, c)));
    }
  }

  /** Ports do not matter to a view. */
  lemma {:induction false} HeardUpToPorts(cfg: NodeConfig, p: PeerRecord, cs: seq<RouteChange>, ds: seq<RouteChange>, v: View)
    requires cfg.policy.NoPolicy? && SameChanges(cs, ds)
    ensures HeardAll(v, ItemsFor(cfg, p, cs)) == HeardAll(v, ItemsFor(cfg, p, ds))
    decreases |cs|
  {
    if |cs| > 0 {
      var c, d := cs[0], ds[0];
      assert SameChange(c, d);
      HeardAppend(v, ItemFor(cfg, p, c), ItemsFor(cfg, p, cs[1..]));
      HeardAppend(v, ItemFor(cfg, p, d), ItemsFor(cfg, p, ds[1..]));
      ItemUpToPorts(cfg, p, c, d, v);
      assert forall i :: 0 <= i < |cs[1..]| ==> cs[1..][i] == cs[i + 1] && ds[1..][i] == ds[i + 1];
      HeardUpToPorts(cfg, p, cs[1..], ds[1..], HeardAll(v, ItemFor(cfg, p, c)));
    }
  }

  lemma ItemUpToPorts(cfg: NodeConfig, p: PeerRecord, c: RouteChange, d: RouteChange, v: View)
    requires cfg.policy.NoPolicy? && SameChange(c, d)
    ensures HeardAll(v, ItemFor(cfg, p, c)) == HeardAll(v, ItemFor(cfg, p, d))
  {
    var xs, ys := ItemFor(cfg, p, c), ItemFor(cfg, p, d);
    match c.x {
      case OfLocal(ch) => assert Portless(ch).name == Portless(d.x.ch).name;
      case OfPeer(r) =>
        assert Core(r) == Core(d.x.ir);
        assert KeyOf(Core(r)) == KeyOf(Core(d.x.ir)) && Via(Core(r)) == Via(Core(d.x.ir)) && Core(r).nodePath == Core(d.x.ir).nodePath;
    }
    if |xs| > 0 {
      assert xs == [xs[0]] && ys == [ys[0]];
      HeardOne(v, xs[0]);
      HeardOne(v, ys[0]);
      assert Heard(v, xs[0]) == Heard(v, ys[0]);
    }
  }

  lemma CoversUpToPorts(self: string, peer: string, t: RouteTable, u: RouteTable, v: View)
    requires SameButPorts(t, u) && Covers(self, peer, u.local, u.internal, v)
    ensures Covers(self, peer, t.local, t.internal, v)
  {
    forall name ensures Find(ChannelName, t.local, name).Some? <==> Find(ChannelName, u.local, name).Some? {
      SameNameIndex(t.local, u.local, name);
    }
    forall k
      ensures Find(KeyOf, t.internal, k).Some? <==> Find(KeyOf, u.internal, k).Some?
      ensures Find(KeyOf, t.internal, k).Some? ==> Core(Find(KeyOf, t.internal, k).value) == Core(Find(KeyOf, u.internal, k).value)
    {
      SameKeyIndex(t.internal, u.internal, k);
    }
    forall r: InternalRoute, q: InternalRoute | Core(r) == Core(q)
      ensures Passable(r, peer) == Passable(q, peer) && r.nodePath == q.nodePath
    {
      assert Via(Core(r)) == Via(Core(q)) && Core(r).nodePath == Core(q).nodePath && Core(r).isStale == Core(q).isStale;
    }
  }

  // -------------------------------------------------------------------------
  // What a dispatch sends to one peer
  // -------------------------------------------------------------------------

  lemma {:induction false} ItemsToAppend(peer: string, xs: seq<Send>, ys: seq<Send>)
    ensures ItemsTo(peer, xs + ys) == ItemsTo(peer, xs) + ItemsTo(peer, ys)
  {
    if |xs| == 0 {
      assert xs + ys == ys;
    } else {
      assert (xs + ys)[1..] == xs[1..] + ys;
      ItemsToAppend(peer, xs[1..], ys);
    }
  }

  lemma {:induction false} NothingTo(peer: string, xs: seq<Send>)
    requires forall x :: x in xs ==> x.SendUpdate? ==> x.to != peer
    ensures ItemsTo(peer, xs) == []
  {
    if |xs| > 0 {
      assert xs[0] in xs;
      NothingTo(peer, xs[1..]);
    }
  }

  lemma KeepalivesTellNothing(peer: string, a: Action, t: RouteTable, sent: map<string, int>, up: set<string>)
    ensures ItemsTo(peer, KeepaliveSends(a, t, sent, up)) == []
  {
    forall x | x in KeepaliveSends(a, t, sent, up) ensures x.SendKeepalive? {
      KeepalivesOnly(Needing(t.peers, sent, a.now), up, x);
    }
    NothingTo(peer, KeepaliveSends(a, t, sent, up));
  }

  lemma PostTells(up: set<string>, to: string, items: seq<UpdateItem>, peer: string)
    ensures ItemsTo(peer, Post(up, to, items)) == if to == peer && peer in up then items else []
  {
    var xs := Post(up, to, items);
    if |xs| > 0 {
      assert xs[1..] == [];
      assert ItemsTo(peer, xs[1..]) == [];
    }
  }

  lemma {:induction false} FanOutTells(cfg: NodeConfig, peers: seq<PeerRecord>, cs: seq<RouteChange>, up: set<string>, p: PeerRecord)
    requires Unique(PeerName, peers) && PeerName(p) in up
    ensures p in peers ==> ItemsTo(PeerName(p), FanOut(cfg, peers, cs, up)) == ItemsFor(cfg, p, cs)
    ensures (forall q :: q in peers ==> PeerName(q) != PeerName(p)) ==> ItemsTo(PeerName(p), FanOut(cfg, peers, cs, up)) == []
  {
    if |peers| > 0 {
      var first, rest := Post(up, PeerName(peers[0]), ItemsFor(cfg, peers[0], cs)), peers[1..];
      ItemsToAppend(PeerName(p), first, FanOut(cfg, rest, cs, up));
      PostTells(up, PeerName(peers[0]), ItemsFor(cfg, peers[0], cs), PeerName(p));
      UniqueRest(peers);
      FanOutTells(cfg, rest, cs, up, p);
    }
  }

  lemma UniqueRest(peers: seq<PeerRecord>)
    requires Unique(PeerName, peers) && |peers| > 0
    ensures Unique(PeerName, peers[1..]) && peers[0] in peers
    ensures forall q :: q in peers[1..] ==> q in peers && PeerName(q) != PeerName(peers[0])
  {
    assert forall i :: 0 <= i < |peers[1..]| ==> peers[1..][i] == peers[i + 1];
  }

  /** A dispatch other than a connect tells a connected, reachable peer exactly the items of its change report. */
  lemma DispatchTells(cfg: NodeConfig, a: Action, plan: PlanResult, sent: map<string, int>, up: set<string>, p: PeerRecord)
    requires !a.InternalProtocolConnected? && Unique(PeerName, plan.next.peers)
    requires p in plan.next.peers && p.status == Connected && PeerName(p) in up
    ensures ItemsTo(PeerName(p), Notified(cfg, a, plan, up) + KeepaliveSends(a, plan.next, sent, up)) == ItemsFor(cfg, p, plan.changes)
  {
    var name := PeerName(p);
    ItemsToAppend(name, Notified(cfg, a, plan, up), KeepaliveSends(a, plan.next, sent, up));
    KeepalivesTellNothing(name, a, plan.next, sent, up);
    var notice := CloseNotice(a, plan.prev, up);
    NothingTo(name, notice);
    WithinUnique(StatusOf, PeerName, plan.next.peers, {Connected});
    FanOutTells(cfg, ConnectedPeers(plan.next), plan.changes, up, p);
    var news := if |plan.changes| == 0 then [] else FanOut(cfg, ConnectedPeers(plan.next), plan.changes, up);
    ItemsToAppend(name, notice, news);
    assert Notified(cfg, a, plan, up) == notice + news;
  }

  /** Hearing announcements that do not contradict each other, the listener knows each of them. */
  lemma {:induction false} AddsHeard(v: View, us: seq<UpdateItem>, u: UpdateItem)
    requires forall x :: x in us ==> x.verb.Add?
    requires forall x :: x in us && ItemKey(x) == ItemKey(u) ==> x.nodePath == u.nodePath
    requires u in us || (ItemKey(u) in v && v[ItemKey(u)] == u.nodePath)
    ensures ItemKey(u) in HeardAll(v, us) && HeardAll(v, us)[ItemKey(u)] == u.nodePath
    decreases us
  {
    if |us| > 0 {
      assert us[0] in us && forall x :: x in us[1..] ==> x in us;
      AddsHeard(Heard(v, us[0]), us[1..], u);
    }
  }

  /** No learned route claims this node as its origin. */
  ghost predicate OwnFree(self: string, rs: seq<InternalRoute>) {
    forall r :: r in rs ==> r.originNode != self
  }

  /** An update that loop detection lets through does not claim the receiver as origin: its path names its origin. */
  ghost predicate Originated(self: string, a: Action) {
    a.InternalProtocolUpdate? ==> forall u :: u in a.items && u.verb.Add? && self !in u.nodePath ==> u.originNode != self
  }

  lemma SyncItem(cfg: NodeConfig, p: PeerRecord, t: RouteTable, u: UpdateItem)
    requires cfg.policy.NoPolicy? && u in FullSync(cfg, p, t)
    ensures u.verb.Add?
    ensures || (exists ch :: ch in t.local && ItemKey(u) == RouteKey(ch.name, cfg.name) && u.nodePath == [cfg.name])
            || (exists r :: r in t.internal && Passable(r, PeerName(p)) && ItemKey(u) == KeyOf(r) && u.nodePath == [cfg.name] + r.nodePath)
  {
    if u in LocalItems(cfg, t.local) {
      var i :| 0 <= i < |t.local| && LocalItems(cfg, t.local)[i] == u;
      assert t.local[i] in t.local && ItemKey(u) == RouteKey(t.local[i].name, cfg.name);
    } else {
      InternalItemsMember(cfg, p, t.internal, u);
      var r :| r in t.internal && Syncable(cfg, p, r) && u == Advertised(cfg, Add, r);
      assert ItemKey(u) == KeyOf(r);
    }
  }

  lemma SyncConsistent(cfg: NodeConfig, p: PeerRecord, t: RouteTable, u: UpdateItem, x: UpdateItem)
    requires cfg.policy.NoPolicy? && WellFormed(cfg.name, t) && OwnFree(cfg.name, t.internal)
    requires u in FullSync(cfg, p, t) && x in FullSync(cfg, p, t) && ItemKey(x) == ItemKey(u)
    ensures x.nodePath == u.nodePath
  {
    SyncItem(cfg, p, t, u);
    SyncItem(cfg, p, t, x);
    if ItemKey(u).origin != cfg.name {
      var r :| r in t.internal && ItemKey(u) == KeyOf(r) && u.nodePath == [cfg.name] + r.nodePath;
      var q :| q in t.internal && ItemKey(x) == KeyOf(q) && x.nodePath == [cfg.name] + q.nodePath;
      UniqueMember(KeyOf, t.internal, r, q);
    }
  }

  /** Whatever the peer knew before, a full sync makes its view cover the table. */
  lemma FullSyncCovers(cfg: NodeConfig, p: PeerRecord, t: RouteTable, v: View)
    requires cfg.policy.NoPolicy? && WellFormed(cfg.name, t) && OwnFree(cfg.name, t.internal)
    ensures Covers(cfg.name, PeerName(p), t.local, t.internal, HeardAll(v, FullSync(cfg, p, t)))
  {
    var us := FullSync(cfg, p, t);
    forall u | u in us
      ensures u.verb.Add? && ItemKey(u) in HeardAll(v, us) && HeardAll(v, us)[ItemKey(u)] == u.nodePath
    {
      forall x | x in us ensures x.verb.Add? && (ItemKey(x) == ItemKey(u) ==> x.nodePath == u.nodePath) {
        SyncItem(cfg, p, t, x);
        if ItemKey(x) == ItemKey(u) {
          SyncConsistent(cfg, p, t, u, x);
        }
      }
      AddsHeard(v, us, u);
    }
    forall name | Find(ChannelName, t.local, name).Some?
      ensures RouteKey(name, cfg.name) in HeardAll(v, us) && HeardAll(v, us)[RouteKey(name, cfg.name)] == [cfg.name]
    {
      var ch := Find(ChannelName, t.local, name).value;
      var i :| 0 <= i < |t.local| && t.local[i] == ch;
      assert LocalItems(cfg, t.local)[i] in us && ItemKey(LocalItems(cfg, t.local)[i]) == RouteKey(name, cfg.name);
    }
    forall k | Find(KeyOf, t.internal, k).Some? && Passable(Find(KeyOf, t.internal, k).value, PeerName(p))
      ensures k in HeardAll(v, us) && HeardAll(v, us)[k] == [cfg.name] + Find(KeyOf, t.internal, k).value.nodePath
    {
      var r := Find(KeyOf, t.internal, k).value;
      InternalItemsMember(cfg, p, t.internal, Advertised(cfg, Add, r));
      assert Advertised(cfg, Add, r) in us && ItemKey(Advertised(cfg, Add, r)) == k;
    }
  }

  // -------------------------------------------------------------------------
  // Origins
  // -------------------------------------------------------------------------

  ghost predicate OwnFreeChanges(self: string, cs: seq<RouteChange>) {
    forall c :: c in cs && c.x.OfPeer? ==> c.x.ir.originNode != self
  }

  lemma {:induction false} LoopOwnFree(self: string, from: PeerInfo, us: seq<UpdateItem>, rs: seq<InternalRoute>)
    requires OwnFree(self, rs) && forall u :: u in us && u.verb.Add? && self !in u.nodePath ==> u.originNode != self
    ensures var e := ItemLoop(self, from, us, rs); OwnFree(self, e.routes) && OwnFreeChanges(self, e.changes)
  {
    if |us| > 0 {
      assert us[0] in us;
      var i := IndexOf(KeyOf, rs, ItemKey(us[0]));
      if i >= 0 {
        assert rs[i] in rs;
      }
      LoopOwnFree(self, from, us[1..], ItemStep(self, from, us[0], rs).routes);
    }
  }

  lemma CloseOwnFree(self: string, rs: seq<InternalRoute>, name: string)
    requires OwnFree(self, rs)
    ensures OwnFree(self, StaleVia(rs, name)) && OwnFreeChanges(self, UpdatedRoutes(StaleAll(Within(Via, rs, {name}))))
  {
    var theirs := Within(Via, rs, {name});
    forall r | r in StaleVia(rs, name) ensures r.originNode != self {
      var i :| 0 <= i < |rs| && StaleVia(rs, name)[i] == r;
      assert rs[i] in rs;
    }
    forall c | c in UpdatedRoutes(StaleAll(theirs)) ensures c.x.ir.originNode != self {
      var i :| 0 <= i < |theirs| && UpdatedRoutes(StaleAll(theirs))[i] == c;
      assert theirs[i] in theirs;
    }
  }

  lemma PlanOwnFree(self: string, a: Action, t: RouteTable, clock: int)
    requires OwnFree(self, t.internal) && Originated(self, a)
    ensures var plan := Planned(self, a, t, clock); OwnFree(self, plan.next.internal) && OwnFreeChanges(self, plan.changes)
  {
    match a
    case InternalProtocolUpdate(info, us) => LoopOwnFree(self, info, us, t.internal);
    case InternalProtocolClose(info, code) => CloseOwnFree(self, t.internal, info.name);
    case _ =>
  }

  lemma OwnFreeUpToPorts(self: string, t: RouteTable, u: RouteTable)
    requires SameButPorts(t, u) && OwnFree(self, u.internal)
    ensures OwnFree(self, t.internal)
  {
    forall r | r in t.internal ensures r.originNode != self {
      PlannedTwin(t, u, r);
      var q :| q in u.internal && Core(q) == Core(r);
      assert Core(q).originNode == Core(r).originNode;
    }
  }

  // -------------------------------------------------------------------------
  // One dispatch, then a whole session
  // -------------------------------------------------------------------------

  ghost predicate Sound(cfg: NodeConfig, t: RouteTable) {
    WellFormed(cfg.name, t) && OwnFree(cfg.name, t.internal)
  }

  ghost predicate ConnectedTo(t: RouteTable, peer: string) {
    exists p :: p in t.peers && PeerName(p) == peer && p.status == Connected
  }

  lemma DispatchSound(cfg: NodeConfig, s: BusState, i: Input)
    requires cfg.policy.NoPolicy? && Sound(cfg, s.table) && Originated(cfg.name, i.action)
    ensures Sound(cfg, Dispatched(cfg, s, i.action, i.clock, i.up).state.table)
  {
    DispatchKeepsWellFormed(cfg, s, i.action, i.clock, i.up);
    TableAfter(cfg, s, i.action, i.clock, i.up);
    PlanOwnFree(cfg.name, i.action, s.table, i.clock);
    if !LacksToken(i.action) {
      OwnFreeUpToPorts(cfg.name, Dispatched(cfg, s, i.action, i.clock, i.up).state.table,
                       Planned(cfg.name, i.action, s.table, i.clock).next);
    }
  }

  /** The report of a changing plan, as the peer hears it, keeps its view covering the committed table. */
  lemma PlanCovered(cfg: NodeConfig, s: BusState, a: Action, clock: int, p: PeerRecord, v: View)
    requires cfg.policy.NoPolicy? && Sound(cfg, s.table) && Originated(cfg.name, a)
    requires Covers(cfg.name, PeerName(p), s.table.local, s.table.internal, v)
    ensures var plan := PlanPorts(Planned(cfg.name, a, s.table, clock), s.pool);
            Covers(cfg.name, PeerName(p), plan.next.local, plan.next.internal, HeardAll(v, ItemsFor(cfg, p, plan.changes)))
  {
    var ribPlan := Planned(cfg.name, a, s.table, clock);
    var plan := PlanPorts(ribPlan, s.pool);
    StampingKeepsRoutes(ribPlan, s.pool);
    PlanOwnFree(cfg.name, a, s.table, clock);
    DeltasAreExact(cfg.name, a, s.table, clock);
    SensibleIsProper(cfg.name, ribPlan.changes, s.table.local, s.table.internal);
    ReportCovered(cfg, p, ribPlan.changes, s.table.local, s.table.internal, v);
    HeardUpToPorts(cfg, p, plan.changes, ribPlan.changes, v);
    CoversUpToPorts(cfg.name, PeerName(p), plan.next, ribPlan.next, HeardAll(v, ItemsFor(cfg, p, plan.changes)));
  }

  /** A connect sends the peer concerned a full sync and nobody else anything. */
  lemma ConnectTells(cfg: NodeConfig, a: Action, plan: PlanResult, sent: map<string, int>, up: set<string>, p: PeerRecord)
    requires a.InternalProtocolConnected? && Unique(PeerName, plan.next.peers)
    requires p in plan.next.peers && p.status == Connected && PeerName(p) in up
    ensures ItemsTo(PeerName(p), Notified(cfg, a, plan, up) + KeepaliveSends(a, plan.next, sent, up))
            == if a.info.name == PeerName(p) then FullSync(cfg, p, plan.next) else []
  {
    var name := PeerName(p);
    assert Notified(cfg, a, plan, up) + KeepaliveSends(a, plan.next, sent, up) == Notified(cfg, a, plan, up);
    WithinUnique(StatusOf, PeerName, plan.next.peers, {Connected});
    var q := Find(PeerName, ConnectedPeers(plan.next), a.info.name);
    if q.Some? {
      PostTells(up, PeerName(q.value), FullSync(cfg, q.value, plan.next), name);
      if PeerName(q.value) == name {
        UniqueMember(PeerName, ConnectedPeers(plan.next), q.value, p);
      }
    } else {
      assert p in ConnectedPeers(plan.next);
    }
  }

  lemma ConnectChangesNoRoutes(cfg: NodeConfig, s: BusState, a: Action, clock: int, peer: string, v: View)
    requires cfg.policy.NoPolicy? && a.InternalProtocolConnected?
    requires Covers(cfg.name, peer, s.table.local, s.table.internal, v)
    ensures var t := PlanPorts(Planned(cfg.name, a, s.table, clock), s.pool).next; Covers(cfg.name, peer, t.local, t.internal, v)
  {
    var ribPlan := Planned(cfg.name, a, s.table, clock);
    StampingKeepsRoutes(ribPlan, s.pool);
    CoversUpToPorts(cfg.name, peer, PlanPorts(ribPlan, s.pool).next, ribPlan.next, v);
  }

  /** While the peer stays connected, hearing what a dispatch sends keeps its view covering the table. */
  lemma DispatchCovered(cfg: NodeConfig, s: BusState, i: Input, peer: string, v: View)
    requires cfg.policy.NoPolicy? && Sound(cfg, s.table) && Originated(cfg.name, i.action) && peer in i.up
    requires Covers(cfg.name, peer, s.table.local, s.table.internal, v)
    requires ConnectedTo(Dispatched(cfg, s, i.action, i.clock, i.up).state.table, peer)
    ensures var o := Dispatched(cfg, s, i.action, i.clock, i.up);
            Covers(cfg.name, peer, o.state.table.local, o.state.table.internal, HeardAll(v, ItemsTo(peer, o.sends)))
  {
    var o := Dispatched(cfg, s, i.action, i.clock, i.up);
    var ribPlan := Planned(cfg.name, i.action, s.table, i.clock);
    if LacksToken(i.action) {
      assert ItemsTo(peer, o.sends) == [];
    } else if !ribPlan.changed {
      KeepalivesTellNothing(peer, i.action, s.table, s.sent, i.up);
    } else {
      var plan := PlanPorts(ribPlan, s.pool);
      DispatchSound(cfg, s, i);
      var p :| p in plan.next.peers && PeerName(p) == peer && p.status == Connected;
      if i.action.InternalProtocolConnected? {
        ConnectTells(cfg, i.action, plan, s.sent, i.up, p);
        ConnectChangesNoRoutes(cfg, s, i.action, i.clock, peer, v);
        FullSyncCovers(cfg, p, plan.next, v);
      } else {
        DispatchTells(cfg, i.action, plan, s.sent, i.up, p);
        PlanCovered(cfg, s, i.action, i.clock, p, v);
      }
    }
  }

  /** Everything sent to `peer` over a run, in order. */
  function Told(cfg: NodeConfig, s: BusState, inputs: seq<Input>, peer: string): seq<UpdateItem>
    decreases inputs
  {
    if |inputs| == 0 then []
    else
      var o := Dispatched(cfg, s, inputs[0].action, inputs[0].clock, inputs[0].up);
      ItemsTo(peer, o.sends) + Told(cfg, o.state, inputs[1..], peer)
  }

  /** The peer is connected and reachable after every dispatch of the run. */
  ghost predicate StaysConnected(cfg: NodeConfig, s: BusState, inputs: seq<Input>, peer: string)
    decreases inputs
  {
    |inputs| > 0 ==>
      var o := Dispatched(cfg, s, inputs[0].action, inputs[0].clock, inputs[0].up);
      && peer in inputs[0].up && Originated(cfg.name, inputs[0].action)
      && ConnectedTo(o.state.table, peer)
      && StaysConnected(cfg, o.state, inputs[1..], peer)
  }

  lemma {:induction false} SessionCovered(cfg: NodeConfig, s: BusState, inputs: seq<Input>, peer: string, v: View)
    requires cfg.policy.NoPolicy? && Sound(cfg, s.table) && StaysConnected(cfg, s, inputs, peer)
    requires Covers(cfg.name, peer, s.table.local, s.table.internal, v)
    ensures var t := RunBus(cfg, s, inputs).table;
            Sound(cfg, t) && Covers(cfg.name, peer, t.local, t.internal, HeardAll(v, Told(cfg, s, inputs, peer)))
    decreases inputs
  {
    if |inputs| > 0 {
      var o := Dispatched(cfg, s, inputs[0].action, inputs[0].clock, inputs[0].up);
      DispatchCovered(cfg, s, inputs[0], peer, v);
      DispatchSound(cfg, s, inputs[0]);
      HeardAppend(v, ItemsTo(peer, o.sends), Told(cfg, o.state, inputs[1..], peer));
      SessionCovered(cfg, o.state, inputs[1..], peer, HeardAll(v, ItemsTo(peer, o.sends)));
    }
  }

  /** From the dispatch that connects the peer, and as long as it stays connected, everything sent to it adds up to a
      view containing, with its current path, every route a full sync would advertise now. */
  lemma DeltasCoverFullSync(cfg: NodeConfig, s: BusState, connect: Input, inputs: seq<Input>, u: UpdateItem, p: PeerRecord)
    requires cfg.policy.NoPolicy? && Sound(cfg, s.table) && connect.action.InternalProtocolConnected?
    requires connect.action.info.name == PeerName(p)
    requires StaysConnected(cfg, s, [connect] + inputs, PeerName(p))
    requires u in FullSync(cfg, p, RunBus(cfg, s, [connect] + inputs).table)
    ensures var view := HeardAll(map[], Told(cfg, s, [connect] + inputs, PeerName(p)));
            ItemKey(u) in view && view[ItemKey(u)] == u.nodePath
  {
    var peer, all := PeerName(p), [connect] + inputs;
    var o := Dispatched(cfg, s, connect.action, connect.clock, connect.up);
    assert all[0] == connect && all[1..] == inputs;
    DispatchSound(cfg, s, connect);
    ConnectCovered(cfg, s, connect, peer);
    SessionCovered(cfg, o.state, inputs, peer, HeardAll(map[], ItemsTo(peer, o.sends)));
    HeardAppend(map[], ItemsTo(peer, o.sends), Told(cfg, o.state, inputs, peer));
    CoversFullSync(cfg, p, RunBus(cfg, s, all).table, HeardAll(map[], Told(cfg, s, all, peer)), u);
  }

  lemma ConnectCovered(cfg: NodeConfig, s: BusState, connect: Input, peer: string)
    requires cfg.policy.NoPolicy? && Sound(cfg, s.table) && connect.action.InternalProtocolConnected? && connect.action.info.name == peer
    requires peer in connect.up && ConnectedTo(Dispatched(cfg, s, connect.action, connect.clock, connect.up).state.table, peer)
    ensures var o := Dispatched(cfg, s, connect.action, connect.clock, connect.up);
            Covers(cfg.name, peer, o.state.table.local, o.state.table.internal, HeardAll(map[], ItemsTo(peer, o.sends)))
  {
    var ribPlan := Planned(cfg.name, connect.action, s.table, connect.clock);
    var o := Dispatched(cfg, s, connect.action, connect.clock, connect.up);
    DispatchSound(cfg, s, connect);
    assert Find(PeerName, o.state.table.peers, peer).Some?;
    assert ribPlan.changed;
    var plan := PlanPorts(ribPlan, s.pool);
    var p :| p in plan.next.peers && PeerName(p) == peer && p.status == Connected;
    ConnectTells(cfg, connect.action, plan, s.sent, connect.up, p);
    FullSyncCovers(cfg, p, plan.next, map[]);
  }
}
