/** A withdrawal can leave a quiet network short of routes: a run on a triangle of three nodes. */
module Withdrawals {
  import opened KeyedLists
  import opened RouteTypes
  import opened Rib
  import opened BusSpec
  import opened Network
  import opened Flooding
  import opened Termination
  import opened Stability

  // -------------------------------------------------------------------------
  // A node with two peers
  // -------------------------------------------------------------------------

  function Bare(name: string): NodeConfig { NodeConfig(name, None, NoPolicy) }

  function Named(name: string): PeerInfo { PeerInfo(name, [], None, None, None, None) }

  /** A name and whether the session with it is up. */
  datatype Seat = Seat(name: string, on: bool)

  predicate Sits(p: PeerRecord, x: Seat) {
    PeerName(p) == x.name && (p.status == Connected <==> x.on)
  }

  predicate Roster(ps: seq<PeerRecord>, x: Seat, y: Seat) {
    |ps| == 2 && x.name != y.name && Sits(ps[0], x) && Sits(ps[1], y)
  }

  /** What `self` tells about a change over one session. */
  function Tells(self: string, x: Seat, c: RouteChange): multiset<Msg> {
    var items := ItemFor(Bare(self), NamedPeer(x.name), c);
    if x.on && |items| > 0 then multiset{Msg(self, x.name, items)} else multiset{}
  }

  function TellsAny(self: string, x: Seat, y: Seat, cs: seq<RouteChange>): multiset<Msg>
    requires |cs| <= 1
  {
    if |cs| == 0 then multiset{} else Tells(self, x, cs[0]) + Tells(self, y, cs[0])
  }

  lemma PostOne(self: string, p: PeerRecord, x: Seat, c: RouteChange, up: set<string>)
    requires Sits(p, x) && x.on && x.name in up
    ensures Launched(self, Post(up, PeerName(p), ItemsFor(Bare(self), p, [c]))) == Tells(self, x, c)
  {
    assert [c][1..] == [];
    assert ItemsFor(Bare(self), p, [c]) == ItemFor(Bare(self), NamedPeer(x.name), c);
  }

  lemma {:induction false} LaunchedBoth(self: string, a: seq<Send>, b: seq<Send>)
    ensures Launched(self, a + b) == Launched(self, a) + Launched(self, b)
  {
    if |a| == 0 {
      assert a + b == b;
    } else {
      assert (a + b)[1..] == a[1..] + b;
      LaunchedBoth(self, a[1..], b);
    }
  }

  lemma FanOutOne(self: string, p: PeerRecord, x: Seat, rest: seq<PeerRecord>, c: RouteChange, up: set<string>)
    requires Sits(p, x) && x.name in up
    ensures Launched(self, FanOut(Bare(self), Within(StatusOf, [p] + rest, {Connected}), [c], up))
            == Tells(self, x, c) + Launched(self, FanOut(Bare(self), Within(StatusOf, rest, {Connected}), [c], up))
  {
    assert ([p] + rest)[1..] == rest;
    if x.on {
      PostOne(self, p, x, c, up);
      var on := Within(StatusOf, rest, {Connected});
      assert ([p] + on)[1..] == on;
      LaunchedBoth(self, Post(up, PeerName(p), ItemsFor(Bare(self), p, [c])), FanOut(Bare(self), on, [c], up));
    }
  }

  lemma FanOutTwo(self: string, ps: seq<PeerRecord>, x: Seat, y: Seat, c: RouteChange, up: set<string>)
    requires Roster(ps, x, y) && x.name in up && y.name in up
    ensures Launched(self, FanOut(Bare(self), Within(StatusOf, ps, {Connected}), [c], up)) == Tells(self, x, c) + Tells(self, y, c)
  {
    assert ps == [ps[0]] + [ps[1]] && [ps[1]] == [ps[1]] + [];
    FanOutOne(self, ps[0], x, [ps[1]], c, up);
    FanOutOne(self, ps[1], y, [], c, up);
  }

  /** `self` has these two peers, no allocator, and these routes. */
  predicate Node(s: BusState, x: Seat, y: Seat, local: seq<DataChannel>, routes: seq<InternalRoute>) {
    s.pool.None? && Roster(s.table.peers, x, y) && s.table.local == local && s.table.internal == routes
  }

  /** A dispatch of a session, route or update action: the plan is committed, and its one change told to both peers. */
  lemma DispatchNode(self: string, s: BusState, a: Action, clock: int, up: set<string>, x: Seat, y: Seat)
    requires a.LocalRouteCreate? || a.InternalProtocolClose? || a.InternalProtocolUpdate?
    requires s.pool.None? && x.name in up && y.name in up
    requires var plan := Planned(self, a, s.table, clock);
             plan.changed && Roster(plan.next.peers, x, y) && |plan.changes| <= 1
    ensures var plan, o := Planned(self, a, s.table, clock), Dispatched(Bare(self), s, a, clock, up);
            && Node(o.state, x, y, plan.next.local, plan.next.internal)
            && Launched(self, o.sends) == TellsAny(self, x, y, plan.changes)
  {
    var plan, o := Planned(self, a, s.table, clock), Dispatched(Bare(self), s, a, clock, up);
    assert o == Carried(Bare(self), s, a, plan, up);
    var fan := if |plan.changes| == 0 then [] else FanOut(Bare(self), ConnectedPeers(plan.next), plan.changes, up);
    assert CloseNotice(a, plan.prev, up) == [];
    assert o.sends == ([] + fan) + [];
    assert o.sends == fan;
    if |plan.changes| == 1 {
      assert plan.changes == [plan.changes[0]];
      FanOutTwo(self, plan.next.peers, x, y, plan.changes[0], up);
    }
  }

  lemma Touched(ps: seq<PeerRecord>, x: Seat, y: Seat, name: string, clock: int)
    requires Roster(ps, x, y) && (name == x.name || name == y.name)
    ensures IndexOf(PeerName, ps, name) >= 0 && Roster(Touch(ps, name, clock), x, y)
  {
  }

  /** One update item heard from either peer. */
  lemma HearNode(self: string, s: BusState, info: PeerInfo, u: UpdateItem, clock: int, up: set<string>, x: Seat, y: Seat,
                 local: seq<DataChannel>, routes: seq<InternalRoute>)
    requires Node(s, x, y, local, routes) && x.name in up && y.name in up && (info.name == x.name || info.name == y.name)
    ensures var e, o := ItemStep(self, info, u, routes), Dispatched(Bare(self), s, InternalProtocolUpdate(info, [u]), clock, up);
            && |e.changes| <= 1
            && Node(o.state, x, y, local, e.routes) && Launched(self, o.sends) == TellsAny(self, x, y, e.changes)
  {
    assert [u][1..] == [];
    var e := ItemStep(self, info, u, routes);
    assert ItemLoop(self, info, [u], routes) == Then(e, Effect(e.routes, [], []));
    assert ItemLoop(self, info, [u], routes) == e;
    Touched(s.table.peers, x, y, info.name, clock);
    DispatchNode(self, s, InternalProtocolUpdate(info, [u]), clock, up, x, y);
  }

  /** A hard close of the session with `y`. */
  lemma CloseNode(self: string, s: BusState, info: PeerInfo, clock: int, up: set<string>, x: Seat, y: Seat,
                  local: seq<DataChannel>, routes: seq<InternalRoute>)
    requires Node(s, x, y, local, routes) && x.name in up && y.name in up && info.name == x.name && |routes| <= 1
    requires routes != [] ==> Via(routes[0]) == x.name
    ensures var o := Dispatched(Bare(self), s, InternalProtocolClose(info, NORMAL), clock, up);
            && Node(o.state, x.(on := false), y, local, [])
            && Launched(self, o.sends)
               == if routes == [] then multiset{} else TellsAny(self, x.(on := false), y, [Removed(OfPeer(routes[0]))])
  {
    var ps := s.table.peers;
    assert IndexOf(PeerName, ps, info.name) == 0;
    var plan := PlanInternalProtocolClose(info, NORMAL, s.table);
    if routes != [] {
      assert routes == [routes[0]] && routes[1..] == [];
      assert Within(Via, routes, {info.name}) == [routes[0]];
      assert Without(Via, routes, {info.name}) == [];
      assert plan.changes == RemovedRoutes([routes[0]]);
      assert plan.changes == [Removed(OfPeer(routes[0]))];
    } else {
      assert plan.changes == [];
    }
    DispatchNode(self, s, InternalProtocolClose(info, NORMAL), clock, up, x.(on := false), y);
  }

  // -------------------------------------------------------------------------
  // The triangle
  // -------------------------------------------------------------------------

  /** Three nodes and the channel `o` announces. */
  datatype Cast = Cast(o: string, v: string, w: string, ch: DataChannel)

  predicate Distinct(c: Cast) { c.o != c.v && c.o != c.w && c.v != c.w }

  /** What `o` offers, what `v` and `w` hold, whether `v` and `o` keep their session up, and what is in flight. */
  datatype Scene = Scene(local: seq<DataChannel>, atV: seq<InternalRoute>, atW: seq<InternalRoute>, vOn: bool, oOn: bool,
                         flight: multiset<Msg>)

  ghost predicate At(c: Cast, net: Net, s: Scene) {
    && net.cfgs == map[c.o := Bare(c.o), c.v := Bare(c.v), c.w := Bare(c.w)]
    && net.nodes.Keys == {c.o, c.v, c.w}
    && Node(net.nodes[c.o], Seat(c.v, s.oOn), Seat(c.w, true), s.local, [])
    && Node(net.nodes[c.v], Seat(c.o, s.vOn), Seat(c.w, true), [], s.atV)
    && Node(net.nodes[c.w], Seat(c.o, true), Seat(c.v, true), [], s.atW)
    && net.flight == s.flight
  }

  function Everyone(c: Cast): set<string> { {c.o, c.v, c.w} }

  function Item(c: Cast, verb: Verb, path: seq<string>): UpdateItem { UpdateItem(verb, c.ch, path, c.o) }

  function OneMsg(c: Cast, src: string, dst: string, verb: Verb, path: seq<string>): Msg { Msg(src, dst, [Item(c, verb, path)]) }

  function Arrival(c: Cast, m: Msg): Event { Deliver(m, Named(m.src), 0, Everyone(c)) }

  function HardClose(c: Cast, node: string, peer: string): Event {
    Local(node, InternalProtocolClose(Named(peer), NORMAL), 0, Everyone(c))
  }

  function Direct(c: Cast): InternalRoute { InternalRoute(c.ch, Named(c.o), [c.o], c.o, false) }

  /** One item delivered: the target dispatches it, and what it tells joins the messages in flight. */
  lemma Delivered(c: Cast, net: Net, src: string, dst: string, u: UpdateItem, x: Seat, y: Seat, routes: seq<InternalRoute>)
    requires Distinct(c) && Configured(net) && dst in net.nodes && net.cfgs[dst] == Bare(dst)
    requires Node(net.nodes[dst], x, y, [], routes) && x.name in Everyone(c) && y.name in Everyone(c) && (src == x.name || src == y.name)
    requires Msg(src, dst, [u]) in net.flight && |u.nodePath| > 0 && u.nodePath[0] == src
    ensures var m, e := Msg(src, dst, [u]), ItemStep(dst, Named(src), u, routes);
            && Enabled(net, Arrival(c, m)) && |e.changes| <= 1
            && var net' := Exec(net, Arrival(c, m));
            && net'.cfgs == net.cfgs && dst in net'.nodes && net'.nodes == net.nodes[dst := net'.nodes[dst]]
            && Node(net'.nodes[dst], x, y, [], e.routes)
            && net'.flight == net.flight - multiset{m} + TellsAny(dst, x, y, e.changes)
  {
    assert SenderChecks(src, [u]);
    HearNode(dst, net.nodes[dst], Named(src), u, 0, Everyone(c), x, y, [], routes);
  }

  /** Told of the direct route, or of its end, is the other neighbour alone. */
  lemma TellsOther(c: Cast, self: string, other: string, on: bool, change: RouteChange)
    requires Distinct(c) && other != c.o && change.x == OfPeer(Direct(c))
    ensures TellsAny(self, Seat(c.o, on), Seat(other, true), [change])
            == multiset{OneMsg(c, self, other, if change.Removed? then Remove else Add, [self, c.o])}
  {
    assert [self] + [c.o] == [self, c.o];
    assert ItemFor(Bare(self), NamedPeer(c.o), change) == [];
    assert Tells(self, Seat(c.o, on), change) == multiset{};
    assert ItemFor(Bare(self), NamedPeer(other), change) == [Item(c, if change.Removed? then Remove else Add, [self, c.o])];
  }

  function Offer(c: Cast, dst: string): Msg { OneMsg(c, c.o, dst, Add, [c.o]) }

  function Relay(c: Cast, verb: Verb, src: string, dst: string): Msg { OneMsg(c, src, dst, verb, [src, c.o]) }

  lemma OfferTaken(c: Cast, self: string)
    requires Distinct(c) && self != c.o
    ensures ItemStep(self, Named(c.o), Item(c, Add, [c.o]), []) == Effect([Direct(c)], [Added(OfPeer(Direct(c)))], [])
  {
  }

  lemma RelayIgnored(c: Cast, self: string, src: string)
    requires Distinct(c) && self != c.o && self != src
    ensures ItemStep(self, Named(src), Item(c, Add, [src, c.o]), [Direct(c)]) == Effect([Direct(c)], [], [])
  {
  }

  lemma RelayWithdraws(c: Cast, self: string, src: string)
    ensures var e := ItemStep(self, Named(src), Item(c, Remove, [src, c.o]), [Direct(c)]);
            e.routes == [] && e.changes == [Removed(OfPeer(Direct(c)))]
    ensures ItemStep(self, Named(src), Item(c, Remove, [src, c.o]), []) == Effect([], [], [])
  {
  }

  // -------------------------------------------------------------------------
  // One step at a time
  // -------------------------------------------------------------------------

  lemma {:induction false} RunSnoc(net: Net, es: seq<Event>, e: Event)
    requires Configured(net) && CanRun(net, es) && Configured(RunNet(net, es)) && Enabled(RunNet(net, es), e)
    requires Configured(Exec(RunNet(net, es), e))
    ensures CanRun(net, es + [e]) && RunNet(net, es + [e]) == Exec(RunNet(net, es), e)
    decreases es
  {
    if |es| == 0 {
      assert es + [e] == [e] && [e][1..] == [];
    } else {
      assert (es + [e])[1..] == es[1..] + [e];
      RunSnoc(Exec(net, es[0]), es[1..], e);
    }
  }

  /** The events `es` can happen from `start` and lead to scene `s`. */
  ghost predicate Leads(c: Cast, start: Net, es: seq<Event>, s: Scene) {
    Configured(start) && CanRun(start, es) && At(c, RunNet(start, es), s)
  }

  lemma Extend(c: Cast, start: Net, es: seq<Event>, e: Event, s: Scene)
    requires Configured(start) && CanRun(start, es) && Configured(RunNet(start, es)) && Enabled(RunNet(start, es), e)
    requires Configured(Exec(RunNet(start, es), e)) && At(c, Exec(RunNet(start, es), e), s)
    ensures Leads(c, start, es + [e], s)
  {
    RunSnoc(start, es, e);
  }

  lemma AtV(c: Cast, start: Net, es: seq<Event>, s: Scene, src: string, u: UpdateItem)
    requires Distinct(c) && Leads(c, start, es, s) && (src == c.o || src == c.w)
    requires Msg(src, c.v, [u]) in s.flight && |u.nodePath| > 0 && u.nodePath[0] == src
    ensures var m, e := Msg(src, c.v, [u]), ItemStep(c.v, Named(src), u, s.atV);
            && |e.changes| <= 1
            && Leads(c, start, es + [Arrival(c, m)], s.(atV := e.routes,
                 flight := s.flight - multiset{m} + TellsAny(c.v, Seat(c.o, s.vOn), Seat(c.w, true), e.changes)))
  {
    var m, e := Msg(src, c.v, [u]), ItemStep(c.v, Named(src), u, s.atV);
    Delivered(c, RunNet(start, es), src, c.v, u, Seat(c.o, s.vOn), Seat(c.w, true), s.atV);
    Extend(c, start, es, Arrival(c, m),
           s.(atV := e.routes, flight := s.flight - multiset{m} + TellsAny(c.v, Seat(c.o, s.vOn), Seat(c.w, true), e.changes)));
  }

  lemma AtW(c: Cast, start: Net, es: seq<Event>, s: Scene, src: string, u: UpdateItem)
    requires Distinct(c) && Leads(c, start, es, s) && (src == c.o || src == c.v)
    requires Msg(src, c.w, [u]) in s.flight && |u.nodePath| > 0 && u.nodePath[0] == src
    ensures var m, e := Msg(src, c.w, [u]), ItemStep(c.w, Named(src), u, s.atW);
            && |e.changes| <= 1
            && Leads(c, start, es + [Arrival(c, m)], s.(atW := e.routes,
                 flight := s.flight - multiset{m} + TellsAny(c.w, Seat(c.o, true), Seat(c.v, true), e.changes)))
  {
    var m, e := Msg(src, c.w, [u]), ItemStep(c.w, Named(src), u, s.atW);
    Delivered(c, RunNet(start, es), src, c.w, u, Seat(c.o, true), Seat(c.v, true), s.atW);
    Extend(c, start, es, Arrival(c, m),
           s.(atW := e.routes, flight := s.flight - multiset{m} + TellsAny(c.w, Seat(c.o, true), Seat(c.v, true), e.changes)));
  }

  /** The new channel is told to both neighbours. */
  lemma CreateNode(c: Cast, s: BusState)
    requires Distinct(c) && Node(s, Seat(c.v, true), Seat(c.w, true), [], [])
    ensures var o := Dispatched(Bare(c.o), s, LocalRouteCreate(c.ch), 0, Everyone(c));
            && Node(o.state, Seat(c.v, true), Seat(c.w, true), [c.ch], [])
            && Launched(c.o, o.sends) == multiset{Offer(c, c.v), Offer(c, c.w)}
  {
    var x, y, change := Seat(c.v, true), Seat(c.w, true), Added(OfLocal(c.ch));
    assert PlanLocalRouteCreate(c.ch, s.table).changes == [change];
    DispatchNode(c.o, s, LocalRouteCreate(c.ch), 0, Everyone(c), x, y);
    assert [] + [c.ch] == [c.ch];
    assert Tells(c.o, x, change) == multiset{Offer(c, c.v)};
    assert Tells(c.o, y, change) == multiset{Offer(c, c.w)};
  }

  /** The route is announced to both neighbours. */
  lemma Announces(c: Cast, start: Net, es: seq<Event>, s: Scene)
    requires Distinct(c) && Leads(c, start, es, s) && s.local == [] && s.oOn
    ensures Leads(c, start, es + [Announcement(c)], s.(local := [c.ch], flight := s.flight + multiset{Offer(c, c.v), Offer(c, c.w)}))
  {
    CreateNode(c, RunNet(start, es).nodes[c.o]);
    Extend(c, start, es, Announcement(c), s.(local := [c.ch], flight := s.flight + multiset{Offer(c, c.v), Offer(c, c.w)}));
  }

  lemma HeardAtV(c: Cast, start: Net, es: seq<Event>, s: Scene)
    requires Distinct(c) && Leads(c, start, es, s) && s.atV == [] && Offer(c, c.v) in s.flight
    ensures var e := Arrival(c, Offer(c, c.v));
            Leads(c, start, es + [e], s.(atV := [Direct(c)],
              flight := s.flight - multiset{Offer(c, c.v)} + multiset{Relay(c, Add, c.v, c.w)}))
  {
    OfferTaken(c, c.v);
    TellsOther(c, c.v, c.w, s.vOn, Added(OfPeer(Direct(c))));
    AtV(c, start, es, s, c.o, Item(c, Add, [c.o]));
  }

  lemma HeardAtW(c: Cast, start: Net, es: seq<Event>, s: Scene)
    requires Distinct(c) && Leads(c, start, es, s) && s.atW == [] && Offer(c, c.w) in s.flight
    ensures var e := Arrival(c, Offer(c, c.w));
            Leads(c, start, es + [e], s.(atW := [Direct(c)],
              flight := s.flight - multiset{Offer(c, c.w)} + multiset{Relay(c, Add, c.w, c.v)}))
  {
    OfferTaken(c, c.w);
    TellsOther(c, c.w, c.v, true, Added(OfPeer(Direct(c))));
    AtW(c, start, es, s, c.o, Item(c, Add, [c.o]));
  }

  /** Neither keeps the other's longer offer. */
  lemma IgnoredAtW(c: Cast, start: Net, es: seq<Event>, s: Scene)
    requires Distinct(c) && Leads(c, start, es, s) && s.atW == [Direct(c)] && Relay(c, Add, c.v, c.w) in s.flight
    ensures var e := Arrival(c, Relay(c, Add, c.v, c.w));
            Leads(c, start, es + [e], s.(flight := s.flight - multiset{Relay(c, Add, c.v, c.w)}))
  {
    RelayIgnored(c, c.w, c.v);
    AtW(c, start, es, s, c.v, Item(c, Add, [c.v, c.o]));
  }

  lemma IgnoredAtV(c: Cast, start: Net, es: seq<Event>, s: Scene)
    requires Distinct(c) && Leads(c, start, es, s) && s.atV == [Direct(c)] && Relay(c, Add, c.w, c.v) in s.flight
    ensures var e := Arrival(c, Relay(c, Add, c.w, c.v));
            Leads(c, start, es + [e], s.(flight := s.flight - multiset{Relay(c, Add, c.w, c.v)}))
  {
    RelayIgnored(c, c.v, c.w);
    AtV(c, start, es, s, c.w, Item(c, Add, [c.w, c.o]));
  }

  lemma CloseV(c: Cast, b: BusState, on: bool)
    requires Distinct(c) && Node(b, Seat(c.o, on), Seat(c.w, true), [], [Direct(c)])
    ensures var o := Dispatched(Bare(c.v), b, InternalProtocolClose(Named(c.o), NORMAL), 0, Everyone(c));
            && Node(o.state, Seat(c.o, false), Seat(c.w, true), [], [])
            && Launched(c.v, o.sends) == multiset{Relay(c, Remove, c.v, c.w)}
  {
    CloseNode(c.v, b, Named(c.o), 0, Everyone(c), Seat(c.o, on), Seat(c.w, true), [], [Direct(c)]);
    TellsOther(c, c.v, c.w, false, Removed(OfPeer(Direct(c))));
  }

  /** `v` withdraws what it learned over the session it closes. */
  lemma ClosedAtV(c: Cast, start: Net, es: seq<Event>, s: Scene)
    requires Distinct(c) && Leads(c, start, es, s) && s.atV == [Direct(c)]
    ensures var e := HardClose(c, c.v, c.o);
            Leads(c, start, es + [e], s.(atV := [], vOn := false, flight := s.flight + multiset{Relay(c, Remove, c.v, c.w)}))
  {
    CloseV(c, RunNet(start, es).nodes[c.v], s.vOn);
    Extend(c, start, es, HardClose(c, c.v, c.o), s.(atV := [], vOn := false, flight := s.flight + multiset{Relay(c, Remove, c.v, c.w)}));
  }

  lemma ClosedAtO(c: Cast, start: Net, es: seq<Event>, s: Scene)
    requires Distinct(c) && Leads(c, start, es, s)
    ensures var e := HardClose(c, c.o, c.v);
            Leads(c, start, es + [e], s.(oOn := false))
  {
    var net := RunNet(start, es);
    CloseNode(c.o, net.nodes[c.o], Named(c.v), 0, Everyone(c), Seat(c.v, s.oOn), Seat(c.w, true), s.local, []);
    Extend(c, start, es, HardClose(c, c.o, c.v), s.(oOn := false));
  }

  /** The withdrawal takes away the route `w` has from `o` itself. */
  lemma WithdrawnAtW(c: Cast, start: Net, es: seq<Event>, s: Scene)
    requires Distinct(c) && Leads(c, start, es, s) && s.atW == [Direct(c)] && Relay(c, Remove, c.v, c.w) in s.flight
    ensures var e := Arrival(c, Relay(c, Remove, c.v, c.w));
            Leads(c, start, es + [e], s.(atW := [],
              flight := s.flight - multiset{Relay(c, Remove, c.v, c.w)} + multiset{Relay(c, Remove, c.w, c.v)}))
  {
    RelayWithdraws(c, c.w, c.v);
    TellsOther(c, c.w, c.v, true, Removed(OfPeer(Direct(c))));
    AtW(c, start, es, s, c.v, Item(c, Remove, [c.v, c.o]));
  }

  lemma WithdrawnAtV(c: Cast, start: Net, es: seq<Event>, s: Scene)
    requires Distinct(c) && Leads(c, start, es, s) && s.atV == [] && Relay(c, Remove, c.w, c.v) in s.flight
    ensures var e := Arrival(c, Relay(c, Remove, c.w, c.v));
            Leads(c, start, es + [e], s.(flight := s.flight - multiset{Relay(c, Remove, c.w, c.v)}))
  {
    RelayWithdraws(c, c.v, c.w);
    AtV(c, start, es, s, c.w, Item(c, Remove, [c.w, c.o]));
  }

  // -------------------------------------------------------------------------
  // The run
  // -------------------------------------------------------------------------

  /** Every two of the three are connected. */
  function Triangle(c: Cast): Links {
    map[c.o := {c.v, c.w}, c.v := {c.o, c.w}, c.w := {c.o, c.v}]
  }

  /** The same without the session between `o` and `v`. */
  function Opened(c: Cast): Links {
    map[c.o := {c.w}, c.v := {c.w}, c.w := {c.o, c.v}]
  }

  function IdleNode(x: string, y: string): BusState { BusState(RouteTable([], [NamedPeer(x), NamedPeer(y)], []), None, map[]) }

  function IdleTriangle(c: Cast): Net {
    Net(map[c.o := Bare(c.o), c.v := Bare(c.v), c.w := Bare(c.w)],
        map[c.o := IdleNode(c.v, c.w), c.v := IdleNode(c.o, c.w), c.w := IdleNode(c.o, c.v)],
        multiset{})
  }

  function Announcement(c: Cast): Event { Local(c.o, LocalRouteCreate(c.ch), 0, Everyone(c)) }

  /** Both neighbours hear of the channel from `o`. */
  function Offering(c: Cast): seq<Event> { [Arrival(c, Offer(c, c.v)), Arrival(c, Offer(c, c.w))] }

  /** They hear it from each other. */
  function Relaying(c: Cast): seq<Event> { [Arrival(c, Relay(c, Add, c.v, c.w)), Arrival(c, Relay(c, Add, c.w, c.v))] }

  /** `v` and `o` close their session for good. */
  function Closing(c: Cast): seq<Event> { [HardClose(c, c.v, c.o), HardClose(c, c.o, c.v)] }

  /** The withdrawals that follow are heard. */
  function Withdrawing(c: Cast): seq<Event> { [Arrival(c, Relay(c, Remove, c.v, c.w)), Arrival(c, Relay(c, Remove, c.w, c.v))] }

  function Story(c: Cast): seq<Event> { [Announcement(c)] + Offering(c) + Relaying(c) + Closing(c) + Withdrawing(c) }

  lemma AtConnects(c: Cast, net: Net, s: Scene, links: Links)
    requires Distinct(c) && At(c, net, s) && s.vOn == s.oOn && links == if s.vOn then Triangle(c) else Opened(c)
    ensures Sessions(links, net)
  {
    RosterConnects(net.nodes[c.o].table, Seat(c.v, s.oOn), Seat(c.w, true));
    RosterConnects(net.nodes[c.v].table, Seat(c.o, s.vOn), Seat(c.w, true));
    RosterConnects(net.nodes[c.w].table, Seat(c.o, true), Seat(c.v, true));
    LinksConnect(c, net, links);
  }

  lemma LinksConnect(c: Cast, net: Net, links: Links)
    requires Distinct(c) && Plain(net) && net.nodes.Keys == links.Keys && (links == Triangle(c) || links == Opened(c))
    requires ConnectedNames(net.nodes[c.o].table) == links[c.o]
    requires ConnectedNames(net.nodes[c.v].table) == links[c.v]
    requires ConnectedNames(net.nodes[c.w].table) == links[c.w]
    ensures Sessions(links, net)
  {
  }

  lemma RosterConnects(t: RouteTable, x: Seat, y: Seat)
    requires Roster(t.peers, x, y)
    ensures ConnectedNames(t) == (if x.on then {x.name} else {}) + if y.on then {y.name} else {}
  {
    assert t.peers[0] in t.peers && t.peers[1] in t.peers;
  }

  lemma IdleRosters(c: Cast)
    requires Distinct(c)
    ensures At(c, IdleTriangle(c), Scene([], [], [], true, true, multiset{}))
  {
  }

  lemma IdlePeers(t: RouteTable, x: string, y: string, self: string)
    requires t == IdleNode(x, y).table && x != y && x != self && y != self
    ensures Unique(PeerName, t.peers) && forall p :: p in t.peers ==> PeerName(p) != self
  {
  }

  lemma IdleIsFresh(c: Cast)
    requires Distinct(c)
    ensures Leads(c, IdleTriangle(c), [], Scene([], [], [], true, true, multiset{})) && FreshSessions(Triangle(c), IdleTriangle(c))
  {
    var net := IdleTriangle(c);
    IdleRosters(c);
    AtConnects(c, net, Scene([], [], [], true, true, multiset{}), Triangle(c));
    IdlePeers(net.nodes[c.o].table, c.v, c.w, c.o);
    IdlePeers(net.nodes[c.v].table, c.o, c.w, c.v);
    IdlePeers(net.nodes[c.w].table, c.o, c.v, c.w);
  }

  lemma Appended(es: seq<Event>, a: Event, b: Event)
    ensures es + [a] + [b] == es + [a, b]
  {
  }

  lemma Swapped(m: Msg, kept: Msg, sent: Msg)
    ensures multiset{m, kept} - multiset{m} + multiset{sent} == multiset{kept, sent}
  {
  }

  lemma AnnouncementMade(c: Cast, start: Net, es: seq<Event>)
    requires Distinct(c) && Leads(c, start, es, Scene([], [], [], true, true, multiset{}))
    ensures Leads(c, start, es + [Announcement(c)], Scene([c.ch], [], [], true, true, multiset{Offer(c, c.v), Offer(c, c.w)}))
  {
    var toV, toW := Offer(c, c.v), Offer(c, c.w);
    assert multiset{} + multiset{toV, toW} == multiset{toV, toW};
    Announces(c, start, es, Scene([], [], [], true, true, multiset{}));
  }

  lemma OfferHeard(c: Cast, start: Net, es: seq<Event>)
    requires Distinct(c) && Leads(c, start, es, Scene([c.ch], [], [], true, true, multiset{Offer(c, c.v), Offer(c, c.w)}))
    ensures Leads(c, start, es + Offering(c), Scene([c.ch], [Direct(c)], [Direct(c)], true, true, multiset{Relay(c, Add, c.v, c.w), Relay(c, Add, c.w, c.v)}))
  {
    var toV, toW, vw, wv := Offer(c, c.v), Offer(c, c.w), Relay(c, Add, c.v, c.w), Relay(c, Add, c.w, c.v);
    Swapped(toV, toW, vw);
    Swapped(toW, vw, wv);
    HeardAtV(c, start, es, Scene([c.ch], [], [], true, true, multiset{toV, toW}));
    HeardAtW(c, start, es + [Arrival(c, toV)], Scene([c.ch], [Direct(c)], [], true, true, multiset{toW, vw}));
    Appended(es, Arrival(c, toV), Arrival(c, toW));
  }

  lemma Relayed(c: Cast, start: Net, es: seq<Event>)
    requires Distinct(c)
    requires Leads(c, start, es, Scene([c.ch], [Direct(c)], [Direct(c)], true, true, multiset{Relay(c, Add, c.v, c.w), Relay(c, Add, c.w, c.v)}))
    ensures Leads(c, start, es + Relaying(c), Scene([c.ch], [Direct(c)], [Direct(c)], true, true, multiset{}))
  {
    var r, vw, wv := [Direct(c)], Relay(c, Add, c.v, c.w), Relay(c, Add, c.w, c.v);
    assert multiset{vw, wv} - multiset{vw} == multiset{wv} && multiset{wv} - multiset{wv} == multiset{};
    IgnoredAtW(c, start, es, Scene([c.ch], r, r, true, true, multiset{vw, wv}));
    IgnoredAtV(c, start, es + [Arrival(c, vw)], Scene([c.ch], r, r, true, true, multiset{wv}));
    Appended(es, Arrival(c, vw), Arrival(c, wv));
  }

  lemma Parted(c: Cast, start: Net, es: seq<Event>)
    requires Distinct(c) && Leads(c, start, es, Scene([c.ch], [Direct(c)], [Direct(c)], true, true, multiset{}))
    ensures Leads(c, start, es + Closing(c), Scene([c.ch], [], [Direct(c)], false, false, multiset{Relay(c, Remove, c.v, c.w)}))
  {
    var r, gone := [Direct(c)], multiset{Relay(c, Remove, c.v, c.w)};
    assert multiset{} + gone == gone;
    ClosedAtV(c, start, es, Scene([c.ch], r, r, true, true, multiset{}));
    ClosedAtO(c, start, es + [HardClose(c, c.v, c.o)], Scene([c.ch], [], r, false, true, gone));
    Appended(es, HardClose(c, c.v, c.o), HardClose(c, c.o, c.v));
  }

  lemma Withdrawn(c: Cast, start: Net, es: seq<Event>)
    requires Distinct(c) && Leads(c, start, es, Scene([c.ch], [], [Direct(c)], false, false, multiset{Relay(c, Remove, c.v, c.w)}))
    ensures Leads(c, start, es + Withdrawing(c), Scene([c.ch], [], [], false, false, multiset{}))
  {
    var vw, wv := Relay(c, Remove, c.v, c.w), Relay(c, Remove, c.w, c.v);
    assert multiset{vw} - multiset{vw} + multiset{wv} == multiset{wv} && multiset{wv} - multiset{wv} == multiset{};
    WithdrawnAtW(c, start, es, Scene([c.ch], [], [Direct(c)], false, false, multiset{vw}));
    WithdrawnAtV(c, start, es + [Arrival(c, vw)], Scene([c.ch], [], [], false, false, multiset{wv}));
    Appended(es, Arrival(c, vw), Arrival(c, wv));
  }

  lemma StoryLeads(c: Cast)
    requires Distinct(c)
    ensures Leads(c, IdleTriangle(c), Story(c), Scene([c.ch], [], [], false, false, multiset{}))
  {
    var start := IdleTriangle(c);
    IdleIsFresh(c);
    assert [] + [Announcement(c)] == [Announcement(c)];
    AnnouncementMade(c, start, []);
    OfferHeard(c, start, [Announcement(c)]);
    Relayed(c, start, [Announcement(c)] + Offering(c));
    Parted(c, start, [Announcement(c)] + Offering(c) + Relaying(c));
    Withdrawn(c, start, [Announcement(c)] + Offering(c) + Relaying(c) + Closing(c));
  }

  lemma StillReachable(c: Cast)
    requires Distinct(c)
    ensures Reachable(Opened(c), c.w, c.o) && Reachable(Opened(c), c.v, c.o)
  {
    assert Walk(Opened(c), [c.w, c.o]);
    assert Walk(Opened(c), [c.v, c.w, c.o]);
  }

  /** Nothing is in flight, `o` still offers the channel and still has its session with `w`, yet neither `w` nor `v`
      holds a route. */
  ghost predicate Stranded(c: Cast, links: Links, end: Net, k: RouteKey) {
    && end.flight == multiset{} && Sessions(links, end) && Originates(end, c.o, k.name)
    && c.w in end.nodes && Reachable(links, c.w, c.o) && HeldAt(end, c.w, k).None?
    && c.v in end.nodes && Reachable(links, c.v, c.o) && HeldAt(end, c.v, k).None?
  }

  lemma LastScene(c: Cast, end: Net)
    requires Distinct(c) && At(c, end, Scene([c.ch], [], [], false, false, multiset{}))
    ensures Stranded(c, Opened(c), end, RouteKey(c.ch.name, c.o))
  {
    AtConnects(c, end, Scene([c.ch], [], [], false, false, multiset{}), Opened(c));
    StillReachable(c);
    assert c.ch in end.nodes[c.o].table.local;
  }

  lemma StrandedIsNotShortest(c: Cast, links: Links, end: Net, k: RouteKey)
    requires Distinct(c) && Stranded(c, links, end, k) && k.origin == c.o
    ensures Graph(links, end) && !Shortest(links, end, k)
  {
    assert !ShortestAt(links, end, c.w, k);
  }

  lemma StrandedRun(c: Cast, start: Net, es: seq<Event>)
    requires Distinct(c) && Leads(c, start, es, Scene([c.ch], [], [], false, false, multiset{}))
    ensures CanRun(start, es)
    ensures var end, k := RunNet(start, es), RouteKey(c.ch.name, c.o);
            Stranded(c, Opened(c), end, k) && Graph(Opened(c), end) && !Shortest(Opened(c), end, k)
  {
    LastScene(c, RunNet(start, es));
    StrandedIsNotShortest(c, Opened(c), RunNet(start, es), RouteKey(c.ch.name, c.o));
  }

  /** After a withdrawal, quiet does not mean shortest. On a triangle of fresh sessions `o` announces a channel and every
      message is delivered; then `o` and `v` close their session for good, and every message is delivered again. */
  lemma WithdrawalStrands(c: Cast)
    requires Distinct(c)
    ensures FreshSessions(Triangle(c), IdleTriangle(c)) && CanRun(IdleTriangle(c), Story(c))
    ensures var end, k := RunNet(IdleTriangle(c), Story(c)), RouteKey(c.ch.name, c.o);
            Stranded(c, Opened(c), end, k) && Graph(Opened(c), end) && !Shortest(Opened(c), end, k)
  {
    IdleIsFresh(c);
    StoryLeads(c);
    StrandedRun(c, IdleTriangle(c), Story(c));
  }
}
