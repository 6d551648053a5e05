/** Everything a dispatch sends, read off the committed table and the report, and nothing else. */
module Messages {
  import opened KeyedLists
  import opened RouteTypes
  import opened Rib
  import opened BusSpec
  import opened PortErasure
  import opened DispatchFacts

  // -------------------------------------------------------------------------
  // What an item says
  // -------------------------------------------------------------------------

  /** The item carries the channel as it stands, port included, except that a node with an Envoy address of its own puts that
      address in place of the channel's. */
  predicate Describes(u: UpdateItem, verb: Verb, ch: DataChannel, path: seq<string>, origin: string, own: Option<string>) {
    && u.verb == verb && u.nodePath == path && u.originNode == origin
    && u.route.(envoyAddress := None) == ch.(envoyAddress := None)
    && (own.Some? ==> u.route.envoyAddress == own)
    && (own.None? ==> u.route.envoyAddress == ch.envoyAddress)
  }

  /** A learned route may be told to `p`: it did not come from there and did not pass there. */
  predicate MayTell(r: InternalRoute, p: PeerRecord) { r.peer.name != p.info.name && p.info.name !in r.nodePath }

  predicate Permitted(cfg: NodeConfig, p: PeerRecord, r: InternalRoute) { cfg.policy.NoPolicy? || cfg.policy.canSend(p, r) }

  predicate Tellable(cfg: NodeConfig, p: PeerRecord, c: RouteChange) {
    c.x.OfPeer? ==> MayTell(c.x.ir, p) && (c.Removed? || Permitted(cfg, p, c.x.ir))
  }

  /** `u` tells `p` of the change. */
  predicate TellsChange(cfg: NodeConfig, c: RouteChange, u: UpdateItem) {
    var verb := if c.Removed? then Remove else Add;
    match c.x
    case OfLocal(ch) => Describes(u, verb, ch, [cfg.name], cfg.name, cfg.envoyAddress)
    case OfPeer(r) => Describes(u, verb, r.ch, [cfg.name] + r.nodePath, r.originNode, cfg.envoyAddress)
  }

  predicate TellsLocal(cfg: NodeConfig, ch: DataChannel, u: UpdateItem) { Describes(u, Add, ch, [cfg.name], cfg.name, cfg.envoyAddress) }

  predicate TellsLearned(cfg: NodeConfig, r: InternalRoute, u: UpdateItem) {
    Describes(u, Add, r.ch, [cfg.name] + r.nodePath, r.originNode, cfg.envoyAddress)
  }

  /** Learned routes a new session is told of: fresh ones that may pass. */
  predicate Syncs(cfg: NodeConfig, p: PeerRecord, r: InternalRoute) { !r.isStale && MayTell(r, p) && Permitted(cfg, p, r) }

  lemma ChangeItem(cfg: NodeConfig, p: PeerRecord, c: RouteChange)
    ensures ItemFor(cfg, p, c) != [] <==> Tellable(cfg, p, c)
    ensures forall u :: u in ItemFor(cfg, p, c) ==> TellsChange(cfg, c, u)
  {
  }

  lemma {:induction false} LearnedItems(cfg: NodeConfig, p: PeerRecord, rs: seq<InternalRoute>, u: UpdateItem)
    ensures u in InternalItems(cfg, p, rs) ==> exists r :: r in rs && Syncs(cfg, p, r) && TellsLearned(cfg, r, u)
    ensures forall r :: r in rs && Syncs(cfg, p, r) ==> exists w :: w in InternalItems(cfg, p, rs) && TellsLearned(cfg, r, w)
  {
    InternalItemsMember(cfg, p, rs, u);
    forall r | r in rs && Syncs(cfg, p, r) ensures exists w :: w in InternalItems(cfg, p, rs) && TellsLearned(cfg, r, w) {
      InternalItemsMember(cfg, p, rs, Advertised(cfg, Add, r));
      assert TellsLearned(cfg, r, Advertised(cfg, Add, r));
    }
  }

  lemma OwnItems(cfg: NodeConfig, chs: seq<DataChannel>, u: UpdateItem)
    ensures u in LocalItems(cfg, chs) ==> exists ch :: ch in chs && TellsLocal(cfg, ch, u)
    ensures forall ch :: ch in chs ==> exists w :: w in LocalItems(cfg, chs) && TellsLocal(cfg, ch, w)
  {
    if u in LocalItems(cfg, chs) {
      var i :| 0 <= i < |chs| && LocalItems(cfg, chs)[i] == u;
      assert chs[i] in chs && TellsLocal(cfg, chs[i], u);
    }
    forall ch | ch in chs ensures exists w :: w in LocalItems(cfg, chs) && TellsLocal(cfg, ch, w) {
      var i :| 0 <= i < |chs| && chs[i] == ch;
      assert LocalItems(cfg, chs)[i] in LocalItems(cfg, chs) && TellsLocal(cfg, ch, LocalItems(cfg, chs)[i]);
    }
  }

  // -------------------------------------------------------------------------
  // What a dispatch sends
  // -------------------------------------------------------------------------

  /** The plan a dispatch carries out, ports stamped. */
  function Committed(cfg: NodeConfig, s: BusState, a: Action, clock: int): Option<PlanResult> {
    if LacksToken(a) then None
    else
      match ApplyInboundPolicy(cfg.policy, a, s.table)
      case None => None
      case Some(f) =>
        var plan := Planned(cfg.name, f, s.table, clock);
        if plan.changed then Some(PlanPorts(plan, s.pool)) else None
  }

  lemma CommittedIs(cfg: NodeConfig, s: BusState, a: Action, clock: int, up: set<string>)
    ensures var o, plan := Dispatched(cfg, s, a, clock, up), Committed(cfg, s, a, clock);
            && (o.result.Success? <==> plan.Some?)
            && (plan.Some? ==> o.state.table == plan.value.next && o.sends == Notified(cfg, a, plan.value, up) + KeepaliveSends(a, plan.value.next, s.sent, up))
            && (plan.None? ==> o.state.table == s.table && o.state.pool == s.pool && forall x :: x in o.sends ==> x.SendKeepalive?)
  {
    var o := Dispatched(cfg, s, a, clock, up);
    if Committed(cfg, s, a, clock).None? {
      forall x | x in o.sends ensures x.SendKeepalive? {
        KeepaliveSendsOnly(a, s.table, s.sent, up, x);
      }
    }
  }

  /** A connected peer of the committed table that the transport reaches. */
  ghost predicate Listens(t: RouteTable, up: set<string>, p: PeerRecord) { p in t.peers && p.status == Connected && p.info.name in up }

  /** `u` is in a message to `to` that was sent. */
  ghost predicate Sent(o: Outcome, to: string, u: UpdateItem) {
    exists x :: x in o.sends && x.SendUpdate? && x.to == to && u in x.items
  }

  lemma UpdateSent(cfg: NodeConfig, s: BusState, a: Action, clock: int, up: set<string>, to: string, u: UpdateItem) returns (x: Send)
    requires Sent(Dispatched(cfg, s, a, clock, up), to, u)
    ensures Committed(cfg, s, a, clock).Some? && x.SendUpdate? && x.to == to && u in x.items
    ensures x in Notified(cfg, a, Committed(cfg, s, a, clock).value, up)
  {
    var o := Dispatched(cfg, s, a, clock, up);
    x :| x in o.sends && x.SendUpdate? && x.to == to && u in x.items;
    CommittedIs(cfg, s, a, clock, up);
    var plan := Committed(cfg, s, a, clock).value;
    if x in KeepaliveSends(a, plan.next, s.sent, up) {
      KeepaliveSendsOnly(a, plan.next, s.sent, up, x);
    }
  }

  /** Deltas: every item sent tells a listening peer of a change that may be told to it. */
  lemma DeltaIsChange(cfg: NodeConfig, s: BusState, a: Action, clock: int, up: set<string>, to: string, u: UpdateItem)
    requires !a.InternalProtocolConnected? && Sent(Dispatched(cfg, s, a, clock, up), to, u)
    ensures Dispatched(cfg, s, a, clock, up).result.Success? && Committed(cfg, s, a, clock).Some?
    ensures exists p, c :: Listens(Dispatched(cfg, s, a, clock, up).state.table, up, p) && p.info.name == to
              && c in Committed(cfg, s, a, clock).value.changes && Tellable(cfg, p, c) && TellsChange(cfg, c, u)
  {
    var x := UpdateSent(cfg, s, a, clock, up, to, u);
    CommittedIs(cfg, s, a, clock, up);
    var plan := Committed(cfg, s, a, clock).value;
    FanOutMember(cfg, ConnectedPeers(plan.next), plan.changes, up, x);
    var p :| p in ConnectedPeers(plan.next) && PeerName(p) in up && x == SendUpdate(PeerName(p), ItemsFor(cfg, p, plan.changes));
    ItemsForMember(cfg, p, plan.changes, u);
    var c :| c in plan.changes && u in ItemFor(cfg, p, c);
    ChangeItem(cfg, p, c);
    assert Listens(plan.next, up, p);
  }

  /** And every change that may be told to a listening peer is. */
  lemma ChangeIsDelta(cfg: NodeConfig, s: BusState, a: Action, clock: int, up: set<string>, p: PeerRecord, c: RouteChange)
    requires !a.InternalProtocolConnected? && Committed(cfg, s, a, clock).Some?
    requires Listens(Dispatched(cfg, s, a, clock, up).state.table, up, p)
    requires c in Committed(cfg, s, a, clock).value.changes && Tellable(cfg, p, c)
    ensures exists u :: Sent(Dispatched(cfg, s, a, clock, up), p.info.name, u) && TellsChange(cfg, c, u)
  {
    CommittedIs(cfg, s, a, clock, up);
    var plan := Committed(cfg, s, a, clock).value;
    ChangeItem(cfg, p, c);
    var u := ItemFor(cfg, p, c)[0];
    ItemsForMember(cfg, p, plan.changes, u);
    var x := SendUpdate(p.info.name, ItemsFor(cfg, p, plan.changes));
    FanOutMember(cfg, ConnectedPeers(plan.next), plan.changes, up, x);
    assert x in Dispatched(cfg, s, a, clock, up).sends;
    assert Sent(Dispatched(cfg, s, a, clock, up), p.info.name, u);
  }

  /** A new session: every item sent goes to its peer and describes a channel of the node or a learned route it may tell. */
  lemma SyncIsTable(cfg: NodeConfig, s: BusState, a: Action, clock: int, up: set<string>, to: string, u: UpdateItem)
    requires a.InternalProtocolConnected? && Sent(Dispatched(cfg, s, a, clock, up), to, u)
    ensures var t := Dispatched(cfg, s, a, clock, up).state.table;
            && to == a.info.name
            && exists p :: Listens(t, up, p) && p.info.name == to
                 && ((exists ch :: ch in t.local && TellsLocal(cfg, ch, u))
                     || exists r :: r in t.internal && Syncs(cfg, p, r) && TellsLearned(cfg, r, u))
  {
    var x := UpdateSent(cfg, s, a, clock, up, to, u);
    CommittedIs(cfg, s, a, clock, up);
    var plan := Committed(cfg, s, a, clock).value;
    var p := Find(PeerName, ConnectedPeers(plan.next), a.info.name).value;
    assert x == SendUpdate(PeerName(p), FullSync(cfg, p, plan.next)) && Listens(plan.next, up, p);
    OwnItems(cfg, plan.next.local, u);
    LearnedItems(cfg, p, plan.next.internal, u);
  }

  /** The peer of a new session, if it listens. */
  ghost predicate JustConnected(cfg: NodeConfig, s: BusState, a: Action, clock: int, up: set<string>, p: PeerRecord) {
    var o := Dispatched(cfg, s, a, clock, up);
    && a.InternalProtocolConnected? && o.result.Success? && Unique(PeerName, o.state.table.peers)
    && Listens(o.state.table, up, p) && p.info.name == a.info.name
  }

  lemma SyncSent(cfg: NodeConfig, s: BusState, a: Action, clock: int, up: set<string>, p: PeerRecord, u: UpdateItem)
    requires JustConnected(cfg, s, a, clock, up, p) && u in FullSync(cfg, p, Dispatched(cfg, s, a, clock, up).state.table)
    ensures Sent(Dispatched(cfg, s, a, clock, up), a.info.name, u)
  {
    CommittedIs(cfg, s, a, clock, up);
    var plan := Committed(cfg, s, a, clock).value;
    assert p in ConnectedPeers(plan.next);
    var q := Find(PeerName, ConnectedPeers(plan.next), a.info.name).value;
    UniqueMember(PeerName, plan.next.peers, p, q);
    var x := SendUpdate(PeerName(p), FullSync(cfg, p, plan.next));
    assert x in Notified(cfg, a, plan, up);
    assert x in Dispatched(cfg, s, a, clock, up).sends;
  }

  /** And every one of them is described to it. */
  lemma ChannelIsSynced(cfg: NodeConfig, s: BusState, a: Action, clock: int, up: set<string>, p: PeerRecord, ch: DataChannel)
    requires JustConnected(cfg, s, a, clock, up, p) && ch in Dispatched(cfg, s, a, clock, up).state.table.local
    ensures exists u :: Sent(Dispatched(cfg, s, a, clock, up), a.info.name, u) && TellsLocal(cfg, ch, u)
  {
    var t := Dispatched(cfg, s, a, clock, up).state.table;
    OwnItems(cfg, t.local, AdvertisedLocal(cfg, Add, ch));
    var u :| u in LocalItems(cfg, t.local) && TellsLocal(cfg, ch, u);
    SyncSent(cfg, s, a, clock, up, p, u);
  }

  lemma RouteIsSynced(cfg: NodeConfig, s: BusState, a: Action, clock: int, up: set<string>, p: PeerRecord, r: InternalRoute)
    requires JustConnected(cfg, s, a, clock, up, p) && r in Dispatched(cfg, s, a, clock, up).state.table.internal && Syncs(cfg, p, r)
    ensures exists u :: Sent(Dispatched(cfg, s, a, clock, up), a.info.name, u) && TellsLearned(cfg, r, u)
  {
    var t := Dispatched(cfg, s, a, clock, up).state.table;
    LearnedItems(cfg, p, t.internal, Advertised(cfg, Add, r));
    var u :| u in InternalItems(cfg, p, t.internal) && TellsLearned(cfg, r, u);
    SyncSent(cfg, s, a, clock, up, p, u);
  }

  // -------------------------------------------------------------------------
  // Close notices and results
  // -------------------------------------------------------------------------

  /** A close notice goes out exactly to a configured peer that is deleted and can be reached, with the normal code. */
  lemma ClosesSent(cfg: NodeConfig, s: BusState, a: Action, clock: int, up: set<string>, name: string, code: int)
    ensures SendClose(name, code) in Dispatched(cfg, s, a, clock, up).sends
            <==> a == LocalPeerDelete(name) && (exists p :: p in s.table.peers && p.info.name == name) && name in up && code == 1
  {
    CommittedIs(cfg, s, a, clock, up);
    var plan := Committed(cfg, s, a, clock);
    if plan.Some? {
      NoticeIsClose(cfg, a, plan.value, s.sent, up, name, code);
      StampingKeepsRoutes(Planned(cfg.name, ApplyInboundPolicy(cfg.policy, a, s.table).value, s.table, clock), s.pool);
    }
    FoundPeer(s.table, name);
    if a == LocalPeerDelete(name) {
      DeleteSucceeds(cfg, s, clock, name);
    }
  }

  lemma NoticeIsClose(cfg: NodeConfig, a: Action, plan: PlanResult, sent: map<string, int>, up: set<string>, name: string, code: int)
    ensures SendClose(name, code) in Notified(cfg, a, plan, up) + KeepaliveSends(a, plan.next, sent, up)
            <==> a == LocalPeerDelete(name) && Find(PeerName, plan.prev.peers, name).Some? && name in up && code == 1
  {
    var x := SendClose(name, code);
    if x in KeepaliveSends(a, plan.next, sent, up) {
      KeepaliveSendsOnly(a, plan.next, sent, up, x);
    }
    FanOutMember(cfg, ConnectedPeers(plan.next), plan.changes, up, x);
  }

  lemma FoundPeer(t: RouteTable, name: string)
    ensures Find(PeerName, t.peers, name).Some? <==> exists p :: p in t.peers && p.info.name == name
  {
    var found := Find(PeerName, t.peers, name);
    if found.Some? {
      assert found.value in t.peers && found.value.info.name == name;
    }
  }

  lemma DeleteSucceeds(cfg: NodeConfig, s: BusState, clock: int, name: string)
    ensures Committed(cfg, s, LocalPeerDelete(name), clock).Some? <==> exists p :: p in s.table.peers && p.info.name == name
  {
    FoundPeer(s.table, name);
    if Find(PeerName, s.table.peers, name).None? {
      WithoutNone(PeerName, s.table.peers, {name});
    }
  }

  /** The results: a new peer without a token, or with a blank one, is refused; so is an update of which the policy admits no
      route; anything else succeeds exactly when its plan changes something. A refused or idle action changes neither table
      nor pool and sends no update. */
  lemma ResultIs(cfg: NodeConfig, s: BusState, a: Action, clock: int, up: set<string>)
    ensures var o := Dispatched(cfg, s, a, clock, up);
            && (o.result == MissingPeerToken
                <==> a.LocalPeerCreate? && (a.info.peerToken.None? || forall c :: c in a.info.peerToken.value ==> IsSpace(c)))
            && (o.result == AllRoutesRejected
                <==> a.InternalProtocolUpdate? && cfg.policy.RoutePolicy?
                     && exists p :: Find(PeerName, s.table.peers, a.info.name) == Some(p)
                          && forall u :: u in a.items ==> forall ch :: ch in cfg.policy.canReceive(p, ChannelsOf(a.items)) ==> ch.name != u.route.name)
            && (!o.result.Success? ==> o.state.table == s.table && o.state.pool == s.pool && forall x :: x in o.sends ==> x.SendKeepalive?)
  {
    CommittedIs(cfg, s, a, clock, up);
    if a.InternalProtocolUpdate? && cfg.policy.RoutePolicy? && Find(PeerName, s.table.peers, a.info.name).Some? {
      RejectsAll(cfg, s.table, a);
    }
  }

  lemma RejectsAll(cfg: NodeConfig, t: RouteTable, a: Action)
    requires a.InternalProtocolUpdate? && cfg.policy.RoutePolicy? && Find(PeerName, t.peers, a.info.name).Some?
    ensures ApplyInboundPolicy(cfg.policy, a, t).None?
            <==> forall u :: u in a.items ==> forall ch :: ch in cfg.policy.canReceive(Find(PeerName, t.peers, a.info.name).value, ChannelsOf(a.items)) ==>
                   ch.name != u.route.name
  {
    var allowed := cfg.policy.canReceive(Find(PeerName, t.peers, a.info.name).value, ChannelsOf(a.items));
    var names := set ch | ch in allowed :: ch.name;
    var kept := Within(RouteName, a.items, names);
    if |kept| > 0 {
      assert kept[0] in kept && kept[0] in a.items && RouteName(kept[0]) in names;
    }
    forall u, ch | u in a.items && ch in allowed && ch.name == u.route.name ensures |kept| > 0 {
      assert RouteName(u) in names && u in kept;
    }
  }
}
