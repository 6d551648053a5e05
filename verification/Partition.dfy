/** What closing sessions and deleting channels leave, once every withdrawal has arrived. */
module Partition {
  import opened KeyedLists
  import opened RouteTypes
  import opened Network
  import opened Quiescence
  import opened Flooding
  import opened Stability
  import opened Retreat

  // -------------------------------------------------------------------------
  // Any sessions, any channels: what survives is right
  // -------------------------------------------------------------------------

  predicate Closes(e: Event, v: string, u: string) {
    e.Local? && e.node == v && HardClose(e.action) && e.action.info.name == u
  }

  predicate Deletes(e: Event, k: RouteKey) {
    e.Local? && e.node == k.origin && e.action == LocalRouteDelete(k.name)
  }

  predicate SomeCloses(es: seq<Event>, v: string, u: string) {
    exists i :: 0 <= i < |es| && Closes(es[i], v, u)
  }

  predicate SomeDeletes(es: seq<Event>, k: RouteKey) {
    exists i :: 0 <= i < |es| && Deletes(es[i], k)
  }

  /** Every session outside `rest` is closed at both ends. */
  ghost predicate AllClosed(rest: Links, links: Links, es: seq<Event>)
    requires Sub(rest, links)
  {
    forall v, u :: v in links && u in links[v] && u !in rest[v] ==> SomeCloses(es, v, u)
  }

  lemma EventCloses(rest: Links, links: Links, net: Net, e: Event, v: string)
    requires Going(rest, links, net, e) && v in links
    ensures ConnectedNames(Exec(net, e).nodes[v].table) <= ConnectedNames(net.nodes[v].table)
    ensures forall u :: Closes(e, v, u) ==> u !in ConnectedNames(Exec(net, e).nodes[v].table)
  {
    EventIs(rest, links, net, e);
    OthersSame(rest, links, net, e);
    if v == Where(e) {
      NodeCloses(Before(net, e), v, What(e), e.clock, e.up);
    }
  }

  lemma ClosesRest(es: seq<Event>, v: string, u: string)
    requires |es| > 0 && SomeCloses(es, v, u)
    ensures Closes(es[0], v, u) || SomeCloses(es[1..], v, u)
  {
    var i :| 0 <= i < |es| && Closes(es[i], v, u);
    if i > 0 {
      assert Closes(es[1..][i - 1], v, u);
    }
  }

  /** A session closed for good stays closed. */
  lemma {:induction false} RunCloses(rest: Links, links: Links, net: Net, es: seq<Event>, v: string, u: string)
    requires Orderly(rest, links, net) && WithdrawalRun(rest, net, es) && v in links
    requires u !in ConnectedNames(net.nodes[v].table) || SomeCloses(es, v, u)
    ensures v in RunNet(net, es).nodes && u !in ConnectedNames(RunNet(net, es).nodes[v].table)
    decreases es
  {
    if |es| > 0 {
      OrderKept(rest, links, net, es[0]);
      EventCloses(rest, links, net, es[0], v);
      if SomeCloses(es, v, u) {
        ClosesRest(es, v, u);
      }
      RunCloses(rest, links, Exec(net, es[0]), es[1..], v, u);
    }
  }

  lemma EventOriginates(rest: Links, links: Links, net: Net, e: Event, k: RouteKey)
    requires Going(rest, links, net, e) && k.origin in links
    ensures Originates(Exec(net, e), k.origin, k.name) <==> Originates(net, k.origin, k.name) && !Deletes(e, k)
  {
    EventIs(rest, links, net, e);
    OthersSame(rest, links, net, e);
    if k.origin == Where(e) {
      NodeOriginates(Before(net, e), k.origin, What(e), e.clock, e.up, k.name);
    }
  }

  lemma {:induction false} RunOriginates(rest: Links, links: Links, net: Net, es: seq<Event>, k: RouteKey)
    requires Orderly(rest, links, net) && WithdrawalRun(rest, net, es) && k.origin in links
    ensures Originates(RunNet(net, es), k.origin, k.name) <==> Originates(net, k.origin, k.name) && !SomeDeletes(es, k)
    decreases es
  {
    if |es| > 0 {
      OrderKept(rest, links, net, es[0]);
      EventOriginates(rest, links, net, es[0], k);
      RunOriginates(rest, links, Exec(net, es[0]), es[1..], k);
      DeletesRest(es, k);
    }
  }

  lemma DeletesRest(es: seq<Event>, k: RouteKey)
    requires |es| > 0
    ensures SomeDeletes(es, k) <==> Deletes(es[0], k) || SomeDeletes(es[1..], k)
  {
    assert forall i :: 0 <= i < |es[1..]| ==> es[1..][i] == es[i + 1];
    if SomeDeletes(es, k) && !Deletes(es[0], k) {
      var i :| 0 <= i < |es| && Deletes(es[i], k);
      assert Deletes(es[1..][i - 1], k);
    }
  }

  /** A complete withdrawal run: from rest, every session outside `rest` closed, every message delivered. */
  ghost predicate Completed(rest: Links, links: Links, net: Net, es: seq<Event>) {
    && AtRest(links, net) && Sub(rest, links) && Mutual(rest)
    && WithdrawalRun(rest, net, es) && AllClosed(rest, links, es) && RunNet(net, es).flight == multiset{}
  }

  /** Where such a run ends, as far as `k` goes. */
  ghost predicate Ended(rest: Links, links: Links, start: Net, end: Net, k: RouteKey) {
    && Ebb(rest, links, start, end, k) && Grounded(links, start, k) && Mutual(rest) && end.flight == multiset{}
    && forall v :: v in links ==> ConnectedNames(end.nodes[v].table) <= rest[v]
  }

  lemma RunEnds(rest: Links, links: Links, net: Net, es: seq<Event>, k: RouteKey)
    requires Completed(rest, links, net, es)
    ensures Ended(rest, links, net, RunNet(net, es), k)
  {
    var end := RunNet(net, es);
    RestIsEbb(rest, links, net, k);
    EbbRun(rest, links, net, net, es, k);
    forall v, u | v in links && u in ConnectedNames(end.nodes[v].table) ensures u in rest[v] {
      if u !in rest[v] {
        RunCloses(rest, links, net, es, v, u);
      }
    }
  }

  /** A surviving route was held from the start and its next hop still vouches for it, over a session that is still up. */
  lemma SurvivorIs(rest: Links, links: Links, start: Net, end: Net, v: string, k: RouteKey)
    requires Ended(rest, links, start, end, k) && v in links && PathAt(end, v, k).Some?
    ensures var path := PathAt(end, v, k).value;
            && PathAt(start, v, k) == Some(path) && |path| > 0 && v != k.origin
            && path[0] in links && v in rest[path[0]] && Hops(end, path[0], k).Some? && Hops(end, path[0], k).value < |path|
  {
    assert Kept(start, end, v, k) && Vouched(rest, end, v, k) && GroundedAt(links, start, v, k);
    var u := PathAt(end, v, k).value[0];
    assert u in rest[v] && v in rest[u];
    assert Kept(start, end, u, k);
    HopStays(start, end, u, k);
  }

  lemma HopStays(start: Net, end: Net, u: string, k: RouteKey)
    requires u in start.nodes && u in end.nodes && Kept(start, end, u, k) && Hops(end, u, k).Some? && Hops(start, u, k).Some?
    ensures Hops(end, u, k) == Hops(start, u, k)
  {
  }

  lemma MutualIsGraph(rest: Links, end: Net)
    requires end.nodes.Keys == rest.Keys && Mutual(rest)
    ensures Graph(rest, end)
  {
    forall u | u in rest ensures rest[u] <= rest.Keys {
      forall v | v in rest[u] ensures v in rest {
      }
    }
  }

  lemma SurvivorsSupported(rest: Links, links: Links, start: Net, end: Net, k: RouteKey)
    requires Ended(rest, links, start, end, k)
    ensures Graph(rest, end) && AllSupported(rest, end, k)
  {
    MutualIsGraph(rest, end);
    assert AllSupported(rest, end, k) by {
      forall w | w in rest ensures Supported(rest, end, w, k) {
        SurvivorSupported(rest, links, start, end, w, k);
      }
    }
  }

  lemma SurvivorSupported(rest: Links, links: Links, start: Net, end: Net, w: string, k: RouteKey)
    requires Ended(rest, links, start, end, k) && w in rest && Graph(rest, end)
    ensures Supported(rest, end, w, k)
  {
    if w != k.origin && Hops(end, w, k).Some? {
      SurvivorIs(rest, links, start, end, w, k);
      assert Supports(rest, end, PathAt(end, w, k).value[0], w, k);
    }
  }

  lemma WalkStays(rest: Links, links: Links, walk: seq<string>)
    requires Sub(rest, links) && Walk(rest, walk)
    ensures Walk(links, walk)
  {
    forall i | 0 <= i < |walk| - 1 ensures walk[i] in links[walk[i + 1]] {
      assert walk[i] in rest[walk[i + 1]];
    }
  }

  /** Whatever sessions were closed and channels deleted, in whatever order the withdrawals arrived: a route still held is
      still announced, its origin can still reach its holder, and its path is still as long as the hop distance. */
  lemma SurvivorsAreRight(rest: Links, links: Links, net: Net, es: seq<Event>, v: string, k: RouteKey)
    requires Completed(rest, links, net, es) && v in links
    ensures var end := RunNet(net, es);
            v in end.nodes && (HeldAt(end, v, k).Some? ==>
              && Originates(net, k.origin, k.name) && !SomeDeletes(es, k) && Reachable(rest, v, k.origin)
              && HopDistance(rest, v, k.origin, |HeldAt(end, v, k).value.nodePath|))
  {
    var end := RunNet(net, es);
    RunEnds(rest, links, net, es, k);
    if HeldAt(end, v, k).Some? {
      SurvivorIs(rest, links, net, end, v, k);
      SurvivorsSupported(rest, links, net, end, k);
      var walk := SupportedWalk(rest, end, k, v);
      RestOriginates(rest, links, net, es, k);
      QuietIsConverged(links, net, v, k);
      ShortestStays(rest, links, v, k.origin, |HeldAt(end, v, k).value.nodePath|, walk);
    }
  }

  lemma RestOriginates(rest: Links, links: Links, net: Net, es: seq<Event>, k: RouteKey)
    requires Completed(rest, links, net, es) && k.origin in links
    ensures Originates(RunNet(net, es), k.origin, k.name) <==> Originates(net, k.origin, k.name) && !SomeDeletes(es, k)
  {
    RestIsEbb(rest, links, net, k);
    RunOriginates(rest, links, net, es, k);
  }

  /** A distance that one walk of fewer sessions still covers is still the distance. */
  lemma ShortestStays(rest: Links, links: Links, v: string, o: string, hops: nat, walk: seq<string>)
    requires Sub(rest, links) && HopDistance(links, v, o, hops)
    requires Walk(rest, walk) && walk[0] == v && walk[|walk| - 1] == o && |walk| <= hops + 1
    ensures HopDistance(rest, v, o, hops)
  {
    WalkStays(rest, links, walk);
    forall other | Walk(rest, other) && other[0] == v && other[|other| - 1] == o ensures |other| >= hops + 1 {
      WalkStays(rest, links, other);
    }
  }

  /** After its origin deletes a channel, and every message is delivered, nobody holds a route to it. */
  lemma DeletedIsForgotten(rest: Links, links: Links, net: Net, es: seq<Event>, v: string, k: RouteKey)
    requires Completed(rest, links, net, es) && v in links && SomeDeletes(es, k)
    ensures v in RunNet(net, es).nodes && HeldAt(RunNet(net, es), v, k).None?
  {
    SurvivorsAreRight(rest, links, net, es, v, k);
  }

  // -------------------------------------------------------------------------
  // One session: exactly when what is left is shortest
  // -------------------------------------------------------------------------

  /** `links` without the session between `a` and `b`. */
  function Parted(links: Links, a: string, b: string): Links {
    map u | u in links :: links[u] - (if u == a then {b} else if u == b then {a} else {})
  }

  predicate HeldVia(net: Net, v: string, u: string, k: RouteKey)
    requires v in net.nodes
  {
    PathAt(net, v, k).Some? && |PathAt(net, v, k).value| > 0 && PathAt(net, v, k).value[0] == u
  }

  /** Neither end held its route via the other and can reach the origin another way. */
  ghost predicate NothingCut(links: Links, net: Net, a: string, b: string, k: RouteKey)
    requires a in net.nodes && b in net.nodes
  {
    && (HeldVia(net, a, b, k) ==> !Reachable(Parted(links, a, b), a, k.origin))
    && (HeldVia(net, b, a, k) ==> !Reachable(Parted(links, a, b), b, k.origin))
  }

  lemma PartedIsSub(links: Links, a: string, b: string)
    ensures Sub(Parted(links, a, b), links) && (Mutual(links) ==> Mutual(Parted(links, a, b)))
  {
  }

  /** A set of nodes no session of `rest` leaves, with `a` in it if `a` hangs on `b`, and without `b`. */
  ghost predicate Zone(zone: set<string>, rest: Links, links: Links, start: Net, a: string, b: string, k: RouteKey) {
    && start.nodes.Keys == links.Keys && a in links && b in links && a != b && rest == Parted(links, a, b)
    && (forall v, w :: v in zone && v in rest && w in rest[v] ==> w in zone)
    && b !in zone && (HeldVia(start, a, b, k) ==> a in zone) && !HeldVia(start, b, a, k)
  }

  /** The part of the zone withdrawals of `k` can have reached: none of it until `a` has closed the session. */
  function Open(zone: set<string>, net: Net, a: string, b: string): set<string>
    requires a in net.nodes
  {
    if b in ConnectedNames(net.nodes[a].table) then {} else zone
  }

  /** Outside that part nothing of `k` has been lost or is being withdrawn. */
  ghost predicate Confined(part: set<string>, start: Net, net: Net, k: RouteKey)
    requires net.nodes.Keys == start.nodes.Keys
  {
    && (forall v :: v in net.nodes && v !in part ==> PathAt(net, v, k) == PathAt(start, v, k))
    && (forall m, x :: m in net.flight && x in m.items && ItemKey(x) == k ==> m.dst in part)
  }

  /** Everything a step of the confined run may assume. */
  ghost predicate Inside(zone: set<string>, rest: Links, links: Links, start: Net, net: Net, a: string, b: string, e: Event, k: RouteKey) {
    && Zone(zone, rest, links, start, a, b, k) && Ebb(rest, links, start, net, k) && Going(rest, links, net, e)
    && Confined(Open(zone, net, a, b), start, net, k) && !Deletes(e, k)
  }

  /** The only end that can lose the key by closing is `a`. */
  lemma CloserIsA(zone: set<string>, rest: Links, links: Links, start: Net, a: string, b: string, n: string, u: string, k: RouteKey)
    requires Zone(zone, rest, links, start, a, b, k) && n in links && u in links[n] && u !in rest[n] && HeldVia(start, n, u, k)
    ensures n == a && u == b && a in zone
  {
  }

  /** What a node loses by closing a session it held via that session's peer. */
  lemma LostByClosing(rest: Links, links: Links, start: Net, net: Net, e: Event, k: RouteKey)
    requires Ebb(rest, links, start, net, k) && Going(rest, links, net, e) && e.Local?
    requires Where(e) in Exec(net, e).nodes && Loses(net, Exec(net, e), Where(e), k)
    ensures HardClose(e.action) && HeldVia(start, e.node, e.action.info.name, k) && e.action.info.name in links[e.node]
  {
    EventIs(rest, links, net, e);
    NodeShrinks(net, e.node, e.action, e.clock, e.up, k);
    assert Kept(start, net, e.node, k) && GoodRoute(e.node, HeldAt(net, e.node, k).value);
  }

  lemma LostByUpdate(rest: Links, links: Links, net: Net, e: Event, k: RouteKey)
    requires Going(rest, links, net, e) && e.Deliver?
    requires Where(e) in Exec(net, e).nodes && Loses(net, Exec(net, e), Where(e), k)
    ensures exists x :: x in e.msg.items && ItemKey(x) == k
  {
    EventIs(rest, links, net, e);
    NodeShrinks(Before(net, e), Where(e), What(e), e.clock, e.up, k);
  }

  /** Only nodes of the zone lose the key, and only once `a` has closed the session. */
  lemma LoserIsInside(zone: set<string>, rest: Links, links: Links, start: Net, net: Net, a: string, b: string, e: Event, k: RouteKey)
    requires Inside(zone, rest, links, start, net, a, b, e, k)
    requires Where(e) in Exec(net, e).nodes && a in Exec(net, e).nodes && Loses(net, Exec(net, e), Where(e), k)
    ensures Where(e) in Open(zone, Exec(net, e), a, b)
  {
    EventCloses(rest, links, net, e, a);
    if e.Deliver? {
      LostByUpdate(rest, links, net, e, k);
      var x :| x in e.msg.items && ItemKey(x) == k;
      assert e.msg in net.flight && e.msg.dst in Open(zone, net, a, b);
    } else {
      LostByClosing(rest, links, start, net, e, k);
      CloserIsA(zone, rest, links, start, a, b, e.node, e.action.info.name, k);
      assert Closes(e, a, b);
    }
  }

  lemma TargetInside(zone: set<string>, rest: Links, links: Links, start: Net, net: Net, a: string, b: string, n: string, w: string, k: RouteKey)
    requires Zone(zone, rest, links, start, a, b, k) && a in net.nodes && n in net.nodes && n in links
    requires n in Open(zone, net, a, b) && w in ConnectedNames(net.nodes[n].table) && w in links[n]
    ensures w in Open(zone, net, a, b)
  {
    assert w in rest[n];
  }

  /** What is new in flight about the key is between nodes of the zone. */
  lemma NewInside(zone: set<string>, rest: Links, links: Links, start: Net, net: Net, a: string, b: string, e: Event, k: RouteKey, m: Msg, x: UpdateItem)
    requires Inside(zone, rest, links, start, net, a, b, e, k) && Orderly(rest, links, Exec(net, e))
    requires m in Exec(net, e).flight && m !in net.flight && x in m.items && ItemKey(x) == k
    ensures m.dst in Open(zone, Exec(net, e), a, b)
  {
    NewIsLost(rest, links, net, e, k, m, x);
    LoserIsInside(zone, rest, links, start, net, a, b, e, k);
    TargetInside(zone, rest, links, start, Exec(net, e), a, b, Where(e), m.dst, k);
  }

  lemma NewIsLost(rest: Links, links: Links, net: Net, e: Event, k: RouteKey, m: Msg, x: UpdateItem)
    requires Going(rest, links, net, e) && !Deletes(e, k)
    requires m in Exec(net, e).flight && m !in net.flight && x in m.items && ItemKey(x) == k
    ensures Where(e) in Exec(net, e).nodes && Loses(net, Exec(net, e), Where(e), k)
    ensures m.dst in ConnectedNames(Exec(net, e).nodes[Where(e)].table)
  {
    EventIs(rest, links, net, e);
    NewlyRecalled(Before(net, e), Where(e), What(e), e.clock, e.up, m, x);
  }

  lemma NodeConfined(zone: set<string>, rest: Links, links: Links, start: Net, net: Net, a: string, b: string, e: Event, k: RouteKey, v: string)
    requires Inside(zone, rest, links, start, net, a, b, e, k) && Orderly(rest, links, Exec(net, e))
    requires v in links && v !in Open(zone, Exec(net, e), a, b)
    ensures PathAt(Exec(net, e), v, k) == PathAt(start, v, k)
  {
    OthersSame(rest, links, net, e);
    EventCloses(rest, links, net, e, a);
    assert PathAt(net, v, k) == PathAt(start, v, k);
    if PathAt(Exec(net, e), v, k).Some? {
      StillHeld(rest, links, net, e, v, k);
    } else if PathAt(net, v, k).Some? {
      LoserIsInside(zone, rest, links, start, net, a, b, e, k);
    }
  }

  lemma ConfinedStep(zone: set<string>, rest: Links, links: Links, start: Net, net: Net, a: string, b: string, e: Event, k: RouteKey)
    requires Inside(zone, rest, links, start, net, a, b, e, k) && Orderly(rest, links, Exec(net, e))
    ensures Confined(Open(zone, Exec(net, e), a, b), start, Exec(net, e), k)
  {
    var net' := Exec(net, e);
    forall v | v in links && v !in Open(zone, net', a, b) ensures PathAt(net', v, k) == PathAt(start, v, k) {
      NodeConfined(zone, rest, links, start, net, a, b, e, k, v);
    }
    forall m, x | m in net'.flight && x in m.items && ItemKey(x) == k ensures m.dst in Open(zone, net', a, b) {
      if m in net.flight {
        EventCloses(rest, links, net, e, a);
      } else {
        NewInside(zone, rest, links, start, net, a, b, e, k, m, x);
      }
    }
  }

  lemma {:induction false} ConfinedRun(zone: set<string>, rest: Links, links: Links, start: Net, net: Net, a: string, b: string, es: seq<Event>, k: RouteKey)
    requires Zone(zone, rest, links, start, a, b, k) && Grounded(links, start, k) && Ebb(rest, links, start, net, k)
    requires WithdrawalRun(rest, net, es) && !SomeDeletes(es, k) && Confined(Open(zone, net, a, b), start, net, k)
    ensures forall v :: v in links && v !in zone ==> v in RunNet(net, es).nodes && PathAt(RunNet(net, es), v, k) == PathAt(start, v, k)
    decreases es
  {
    if |es| > 0 {
      EbbStep(rest, links, start, net, es[0], k);
      DeletesRest(es, k);
      ConfinedStep(zone, rest, links, start, net, a, b, es[0], k);
      ConfinedRun(zone, rest, links, start, Exec(net, es[0]), a, b, es[1..], k);
    }
  }

  // -------------------------------------------------------------------------
  // The two directions
  // -------------------------------------------------------------------------

  lemma ReachExtends(links: Links, v: string, u: string, o: string)
    requires v in links && u in links && v in links[u] && Reachable(links, u, o)
    ensures Reachable(links, v, o)
  {
    var walk :| Walk(links, walk) && walk[0] == u && walk[|walk| - 1] == o;
    WalkCons(links, v, walk);
    assert ([v] + walk)[|walk|] == o;
  }

  lemma NextHop(links: Links, net: Net, v: string, k: RouteKey) returns (u: string)
    requires Grounded(links, net, k) && v in links && v != k.origin && Hops(net, v, k).Some?
    ensures u in links && v in links[u] && Hops(net, u, k).Some? && Hops(net, u, k).value < Hops(net, v, k).value
  {
    assert GroundedAt(links, net, v, k);
    u := PathAt(net, v, k).value[0];
  }

  /** `rest` lacks only sessions of `a`. */
  ghost predicate Spares(rest: Links, links: Links, a: string) {
    rest.Keys == links.Keys && forall u, v :: u in links && v in links[u] && u != a && v != a ==> v in rest[u]
  }

  /** Nodes nearer to the origin than `a` do not need it. */
  lemma {:induction false} NearerReaches(rest: Links, links: Links, net: Net, a: string, v: string, k: RouteKey)
    requires Grounded(links, net, k) && Spares(rest, links, a) && k.origin in links && v in links && Hops(net, v, k).Some?
    requires a in links && Hops(net, a, k).Some? && Hops(net, v, k).value < Hops(net, a, k).value
    ensures Reachable(rest, v, k.origin)
    decreases Hops(net, v, k).value
  {
    if v == k.origin {
      assert Walk(rest, [v]);
    } else {
      var u := NextHop(links, net, v, k);
      NearerReaches(rest, links, net, a, u, k);
      ReachExtends(rest, v, u, k.origin);
    }
  }

  /** The nodes the origin cannot reach any more. */
  ghost function CutOff(rest: Links, o: string): set<string> {
    set v | v in rest && !Reachable(rest, v, o)
  }

  lemma CutOffIsClosed(rest: Links, o: string, v: string, w: string)
    requires Mutual(rest) && v in CutOff(rest, o) && w in rest[v]
    ensures w in CutOff(rest, o)
  {
    if Reachable(rest, w, o) {
      ReachExtends(rest, v, w, o);
    }
  }

  lemma CutOffIsZone(links: Links, net: Net, a: string, b: string, k: RouteKey)
    requires Mutual(links) && Grounded(links, net, k) && k.origin in links && a in links && b in links && a != b
    requires HeldVia(net, a, b, k) && NothingCut(links, net, a, b, k)
    ensures Zone(CutOff(Parted(links, a, b), k.origin), Parted(links, a, b), links, net, a, b, k)
  {
    var rest := Parted(links, a, b);
    var zone := CutOff(rest, k.origin);
    assert GroundedAt(links, net, a, k) && GroundedAt(links, net, b, k);
    NearerReaches(rest, links, net, a, b, k);
    PartedIsSub(links, a, b);
    forall v, w | v in zone && v in rest && w in rest[v] ensures w in zone {
      CutOffIsClosed(rest, k.origin, v, w);
    }
  }

  lemma OutsideKeep(zone: set<string>, links: Links, net: Net, a: string, b: string, es: seq<Event>, k: RouteKey)
    requires AtRest(links, net) && Zone(zone, Parted(links, a, b), links, net, a, b, k)
    requires WithdrawalRun(Parted(links, a, b), net, es) && !SomeDeletes(es, k)
    ensures forall v :: v in links && v !in zone ==> v in RunNet(net, es).nodes && PathAt(RunNet(net, es), v, k) == PathAt(net, v, k)
  {
    PartedIsSub(links, a, b);
    RestIsEbb(Parted(links, a, b), links, net, k);
    ConfinedRun(zone, Parted(links, a, b), links, net, net, a, b, es, k);
  }

  lemma ZoneFrom(links: Links, net: Net, a: string, b: string, k: RouteKey) returns (zone: set<string>)
    requires Mutual(links) && Grounded(links, net, k) && k.origin in links && a in links && b in links && a != b
    requires NothingCut(links, net, a, b, k) && !HeldVia(net, b, a, k)
    ensures zone <= CutOff(Parted(links, a, b), k.origin) && Zone(zone, Parted(links, a, b), links, net, a, b, k)
  {
    if HeldVia(net, a, b, k) {
      zone := CutOff(Parted(links, a, b), k.origin);
      CutOffIsZone(links, net, a, b, k);
    } else {
      zone := {};
    }
  }

  lemma NotBoth(links: Links, net: Net, a: string, b: string, k: RouteKey)
    requires Grounded(links, net, k) && a in links && b in links && HeldVia(net, b, a, k)
    ensures !HeldVia(net, a, b, k)
  {
    assert GroundedAt(links, net, b, k) && GroundedAt(links, net, a, k);
  }

  /** A session to be closed in a network at rest. */
  ghost predicate Closing(links: Links, net: Net, a: string, b: string) {
    AtRest(links, net) && a in links && b in links && a != b
  }

  lemma KeepFrom(links: Links, net: Net, a: string, b: string, es: seq<Event>, k: RouteKey)
    requires Closing(links, net, a, b) && k.origin in links && WithdrawalRun(Parted(links, a, b), net, es) && !SomeDeletes(es, k)
    requires NothingCut(links, net, a, b, k) && !HeldVia(net, b, a, k)
    ensures forall v :: v in links && Reachable(Parted(links, a, b), v, k.origin) ==>
              v in RunNet(net, es).nodes && PathAt(RunNet(net, es), v, k) == PathAt(net, v, k)
  {
    PartedIsSub(links, a, b);
    RestIsEbb(Parted(links, a, b), links, net, k);
    var zone := ZoneFrom(links, net, a, b, k);
    OutsideKeep(zone, links, net, a, b, es, k);
  }

  lemma PartedEitherWay(links: Links, net: Net, a: string, b: string, k: RouteKey)
    requires Closing(links, net, a, b)
    ensures Parted(links, b, a) == Parted(links, a, b) && (NothingCut(links, net, a, b, k) <==> NothingCut(links, net, b, a, k))
  {
    assert Parted(links, b, a) == Parted(links, a, b);
  }

  /** If nothing is cut, every node the origin can still reach keeps what it held. */
  lemma ReachableKeep(links: Links, net: Net, a: string, b: string, es: seq<Event>, k: RouteKey, v: string)
    requires Closing(links, net, a, b) && k.origin in links && WithdrawalRun(Parted(links, a, b), net, es) && !SomeDeletes(es, k)
    requires NothingCut(links, net, a, b, k) && v in links && Reachable(Parted(links, a, b), v, k.origin)
    ensures v in RunNet(net, es).nodes && PathAt(RunNet(net, es), v, k) == PathAt(net, v, k)
  {
    if HeldVia(net, b, a, k) {
      RestIsEbb(links, links, net, k);
      NotBoth(links, net, a, b, k);
      PartedEitherWay(links, net, a, b, k);
      KeepFrom(links, net, b, a, es, k);
    } else {
      KeepFrom(links, net, a, b, es, k);
    }
  }

  /** Over each session still up, what one end knows the other end does. */
  lemma NothingLeftToTell(links: Links, net: Net, a: string, b: string, es: seq<Event>, k: RouteKey, u: string, w: string)
    requires Closing(links, net, a, b) && k.origin in links && Completed(Parted(links, a, b), links, net, es) && !SomeDeletes(es, k)
    requires NothingCut(links, net, a, b, k) && u in links && w in Parted(links, a, b)[u]
    ensures u in RunNet(net, es).nodes && w in RunNet(net, es).nodes && NothingToTell(RunNet(net, es), u, w, k)
  {
    var rest, end := Parted(links, a, b), RunNet(net, es);
    RunEnds(rest, links, net, es, k);
    SurvivorsSupported(rest, links, net, end, k);
    if w != k.origin && Hops(end, u, k).Some? {
      var walk := SupportedWalk(rest, end, k, u);
      assert Reachable(rest, u, k.origin);
      ReachExtends(rest, w, u, k.origin);
      HopsKept(links, net, a, b, es, k, u);
      HopsKept(links, net, a, b, es, k, w);
      RestIsTold(links, net, u, w, k);
    }
  }

  lemma HopsKept(links: Links, net: Net, a: string, b: string, es: seq<Event>, k: RouteKey, v: string)
    requires Closing(links, net, a, b) && k.origin in links && Completed(Parted(links, a, b), links, net, es) && !SomeDeletes(es, k)
    requires NothingCut(links, net, a, b, k) && v in links && Reachable(Parted(links, a, b), v, k.origin)
    ensures v in RunNet(net, es).nodes && Hops(RunNet(net, es), v, k) == Hops(net, v, k)
  {
    ReachableKeep(links, net, a, b, es, k, v);
    RestOriginates(Parted(links, a, b), links, net, es, k);
  }

  lemma RestIsShortest(links: Links, net: Net, k: RouteKey)
    requires AtRest(links, net) && k.origin in links
    ensures Graph(links, net) && Shortest(links, net, k)
  {
    forall v | v in links && v != k.origin ensures ShortestAt(links, net, v, k) {
      QuietIsConverged(links, net, v, k);
    }
  }

  /** At rest every session agrees. */
  lemma RestIsTold(links: Links, net: Net, u: string, w: string, k: RouteKey)
    requires AtRest(links, net) && k.origin in links && u in links && w in links[u]
    ensures w in links && NothingToTell(net, u, w, k)
  {
    RestIsShortest(links, net, k);
    ShortestIff(links, net, k);
  }

  lemma KeptIsShortest(links: Links, net: Net, a: string, b: string, es: seq<Event>, k: RouteKey)
    requires Closing(links, net, a, b) && k.origin in links && Completed(Parted(links, a, b), links, net, es) && !SomeDeletes(es, k)
    requires NothingCut(links, net, a, b, k)
    ensures Graph(Parted(links, a, b), RunNet(net, es)) && Shortest(Parted(links, a, b), RunNet(net, es), k)
  {
    var rest, end := Parted(links, a, b), RunNet(net, es);
    RunEnds(rest, links, net, es, k);
    SurvivorsSupported(rest, links, net, end, k);
    forall u, w | u in rest && w in rest[u] ensures NothingToTell(end, u, w, k) {
      NothingLeftToTell(links, net, a, b, es, k, u, w);
    }
    ShortestIff(rest, end, k);
  }

  /** An end that held its route via the other holds nothing after the close. */
  lemma EndLoses(rest: Links, links: Links, net: Net, es: seq<Event>, a: string, b: string, k: RouteKey)
    requires Completed(rest, links, net, es) && a in links && b !in rest[a] && HeldVia(net, a, b, k)
    ensures a != k.origin && a in RunNet(net, es).nodes && HeldAt(RunNet(net, es), a, k).None?
  {
    var end := RunNet(net, es);
    RunEnds(rest, links, net, es, k);
    assert Kept(net, end, a, k) && GroundedAt(links, net, a, k);
  }

  /** Nothing announced, or nothing left announced, and nothing held. */
  lemma SilentIsShortest(rest: Links, links: Links, net: Net, es: seq<Event>, k: RouteKey)
    requires Completed(rest, links, net, es) && k.origin in links && !Originates(RunNet(net, es), k.origin, k.name)
    ensures Graph(rest, RunNet(net, es)) && Shortest(rest, RunNet(net, es), k)
  {
    var end := RunNet(net, es);
    RunEnds(rest, links, net, es, k);
    RestOriginates(rest, links, net, es, k);
    forall v | v in rest && v != k.origin ensures ShortestAt(rest, end, v, k) {
      SurvivorsAreRight(rest, links, net, es, v, k);
    }
  }

  /** From a network at rest, `a` and `b` close their session for good, any channels are deleted, and all that follows is
      delivered, in whatever order. Then the routes for a key are the shortest there are in what is left of the network
      exactly when the channel is not announced any more, or neither end held its route via the other while the origin
      can still reach it. */
  lemma PartingIff(links: Links, net: Net, a: string, b: string, es: seq<Event>, k: RouteKey)
    requires Closing(links, net, a, b) && k.origin in links && Completed(Parted(links, a, b), links, net, es)
    ensures Graph(Parted(links, a, b), RunNet(net, es))
    ensures Shortest(Parted(links, a, b), RunNet(net, es), k)
            <==> !Originates(net, k.origin, k.name) || SomeDeletes(es, k) || NothingCut(links, net, a, b, k)
  {
    var rest, end := Parted(links, a, b), RunNet(net, es);
    RunEnds(rest, links, net, es, k);
    RestOriginates(rest, links, net, es, k);
    if !Originates(end, k.origin, k.name) {
      SilentIsShortest(rest, links, net, es, k);
    } else if NothingCut(links, net, a, b, k) {
      KeptIsShortest(links, net, a, b, es, k);
    } else if HeldVia(net, a, b, k) && Reachable(rest, a, k.origin) {
      EndLoses(rest, links, net, es, a, b, k);
      assert !ShortestAt(rest, end, a, k);
    } else {
      EndLoses(rest, links, net, es, b, a, k);
      assert !ShortestAt(rest, end, b, k);
    }
  }

  // -------------------------------------------------------------------------
  // Such runs exist
  // -------------------------------------------------------------------------

  /** Every message is for a node of the network. */
  ghost predicate Addressed(links: Links, net: Net) {
    (forall u :: u in links ==> links[u] <= links.Keys) && forall m :: m in net.flight ==> m.dst in links
  }

  lemma AddressedStep(rest: Links, links: Links, net: Net, e: Event)
    requires Going(rest, links, net, e) && Addressed(links, net)
    ensures Orderly(rest, links, Exec(net, e)) && Addressed(links, Exec(net, e))
  {
    EventIs(rest, links, net, e);
    OrderKept(rest, links, net, e);
    forall m | m in Exec(net, e).flight && m !in net.flight ensures m.dst in links {
      NewlySent(Before(net, e), Where(e), What(e), e.clock, e.up, m);
    }
  }

  lemma RunFirst(rest: Links, net: Net, e: Event, es: seq<Event>)
    requires Configured(net) && Enabled(net, e) && Withdrawing(rest, e)
    requires Configured(Exec(net, e)) && WithdrawalRun(rest, Exec(net, e), es)
    ensures WithdrawalRun(rest, net, [e] + es) && RunNet(net, [e] + es) == RunNet(Exec(net, e), es)
  {
    assert ([e] + es)[1..] == es;
  }

  /** Delivering withdrawals as they come empties the network. */
  lemma {:induction false} RecallsDrain(rest: Links, links: Links, net: Net, sc: Scale, bound: nat) returns (es: seq<Event>)
    requires Orderly(rest, links, net) && Addressed(links, net) && Fits(sc, net) && Measure(sc, net) <= bound
    ensures WithdrawalRun(rest, net, es) && RunNet(net, es).flight == multiset{}
    decreases bound
  {
    if net.flight == multiset{} {
      es := [];
    } else {
      var m :| m in net.flight;
      var e := Deliver(m, PeerInfo(m.src, [], None, None, None, None), 0, rest[m.dst]);
      MeasureDrops(sc, net, e);
      AddressedStep(rest, links, net, e);
      var later := RecallsDrain(rest, links, Exec(net, e), sc, bound - 1);
      RunFirst(rest, net, e, later);
      es := [e] + later;
    }
  }

  /** One event and then every withdrawal it causes. */
  lemma ThenDrain(rest: Links, links: Links, net: Net, e: Event) returns (es: seq<Event>)
    requires Going(rest, links, net, e) && Addressed(links, net)
    ensures |es| > 0 && es[0] == e && WithdrawalRun(rest, net, es) && RunNet(net, es).flight == multiset{}
  {
    AddressedStep(rest, links, net, e);
    var sc := ScaleExists(Exec(net, e));
    var later := RecallsDrain(rest, links, Exec(net, e), sc, Measure(sc, Exec(net, e)));
    RunFirst(rest, net, e, later);
    es := [e] + later;
  }

  lemma BothThenDrain(rest: Links, links: Links, net: Net, e1: Event, e2: Event) returns (es: seq<Event>)
    requires Going(rest, links, net, e1) && Addressed(links, net) && e2.Local? && Withdrawing(rest, e2)
    ensures |es| > 1 && es[0] == e1 && es[1] == e2 && WithdrawalRun(rest, net, es) && RunNet(net, es).flight == multiset{}
  {
    AddressedStep(rest, links, net, e1);
    var later := ThenDrain(rest, links, Exec(net, e1), e2);
    RunFirst(rest, net, e1, later);
    es := [e1] + later;
  }

  function GoodBye(rest: Links, v: string, u: string): Event
    requires v in rest
  {
    Local(v, InternalProtocolClose(PeerInfo(u, [], None, None, None, None), NORMAL), 0, rest[v])
  }

  lemma PartedClosed(links: Links, a: string, b: string, es: seq<Event>)
    requires |es| > 1 && Closes(es[0], a, b) && Closes(es[1], b, a)
    ensures Sub(Parted(links, a, b), links) && AllClosed(Parted(links, a, b), links, es)
  {
  }

  /** In any network at rest any session can be closed for good and the withdrawals carried through. */
  lemma PartingCompletes(links: Links, net: Net, a: string, b: string) returns (es: seq<Event>)
    requires Closing(links, net, a, b)
    ensures Completed(Parted(links, a, b), links, net, es)
  {
    var rest := Parted(links, a, b);
    PartedIsSub(links, a, b);
    RestIsEbb(rest, links, net, RouteKey("", a));
    es := BothThenDrain(rest, links, net, GoodBye(rest, a, b), GoodBye(rest, b, a));
    PartedClosed(links, a, b, es);
  }
}
