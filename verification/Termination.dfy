/** Flooding ends: deliveries run out, and on every topology they end in shortest paths. */
module Termination {
  import opened KeyedLists
  import opened RouteTypes
  import opened BusSpec
  import opened Network
  import opened Quiescence
  import opened Flooding

  /** A run of deliveries only, in any order. */
  ghost predicate DeliveryRun(links: Links, net: Net, es: seq<Event>): (possible: bool)
    requires Plain(net)
    ensures possible ==> AnnouncementRun(links, net, es) && EndingRun(net, es)
    decreases es
  {
    |es| > 0 ==> es[0].Deliver? && Enabled(net, es[0]) && Announcing(links, net, es[0]) && DeliveryRun(links, Exec(net, es[0]), es[1..])
  }

  /** At most `bound` more deliveries are possible. */
  ghost predicate Bounded(sc: Scale, links: Links, net: Net, bound: int) {
    FloodInv(links, net) && Fits(sc, net) && Measure(sc, net) <= bound
  }

  lemma OneDelivery(sc: Scale, links: Links, net: Net, e: Event, bound: int)
    requires Bounded(sc, links, net, bound) && Enabled(net, e) && Announcing(links, net, e) && e.Deliver?
    ensures bound > 0 && Bounded(sc, links, Exec(net, e), bound - 1)
  {
    MeasureDrops(sc, net, e);
    StepKeepsFlood(links, net, e);
  }

  /** While anything is in flight, it can be delivered. */
  lemma DeliveryPossible(links: Links, net: Net, msg: Msg, info: PeerInfo, clock: int)
    requires FloodInv(links, net) && msg in net.flight && info.name == msg.src
    ensures Enabled(net, Deliver(msg, info, clock, links.Keys)) && Announcing(links, net, Deliver(msg, info, clock, links.Keys))
  {
  }

  /** From any point of an announcement run, delivering what is in flight, in whatever order, takes at most as many steps
      as the measure says and leaves shortest paths everywhere. */
  lemma DeliveriesConverge(sc: Scale, links: Links, net: Net, es: seq<Event>, v: string, k: RouteKey)
    requires FloodInv(links, net) && Fits(sc, net) && DeliveryRun(links, net, es)
    requires v in links && k.origin in links && v != k.origin
    ensures |es| <= Measure(sc, net)
    ensures var end := RunNet(net, es);
            v in end.nodes && k.origin in end.nodes &&
            (end.flight == multiset{} ==>
               && (HeldAt(end, v, k).Some? <==> Originates(end, k.origin, k.name) && Reachable(links, v, k.origin))
               && (HeldAt(end, v, k).Some? ==> HopDistance(links, v, k.origin, |HeldAt(end, v, k).value.nodePath|)))
  {
    MessagesRunOut(sc, net, es);
    RunKeepsFlood(links, net, es);
    if RunNet(net, es).flight == multiset{} {
      QuietIsConverged(links, RunNet(net, es), v, k);
    }
  }

  lemma DeliverFirst(links: Links, net: Net, e: Event, rest: seq<Event>)
    requires Plain(net) && e.Deliver? && Enabled(net, e) && Announcing(links, net, e)
    requires Plain(Exec(net, e)) && DeliveryRun(links, Exec(net, e), rest)
    ensures DeliveryRun(links, net, [e] + rest)
    ensures RunNet(net, [e] + rest) == RunNet(Exec(net, e), rest)
  {
    assert ([e] + rest)[1..] == rest;
  }

  /** Some sequence of deliveries empties the network. */
  lemma {:induction false} Drains(sc: Scale, links: Links, net: Net, clock: int, bound: nat) returns (es: seq<Event>)
    requires Bounded(sc, links, net, bound)
    ensures DeliveryRun(links, net, es) && RunNet(net, es).flight == multiset{}
    decreases bound
  {
    if net.flight == multiset{} {
      es := [];
    } else {
      var msg :| msg in net.flight;
      var e := Deliver(msg, PeerInfo(msg.src, [], None, None, None, None), clock, links.Keys);
      DeliveryPossible(links, net, msg, e.info, clock);
      OneDelivery(sc, links, net, e, bound);
      var rest := Drains(sc, links, Exec(net, e), clock, bound - 1);
      es := [e] + rest;
      DeliverFirst(links, net, e, rest);
    }
  }

  // -------------------------------------------------------------------------
  // Any topology, from the first session to shortest paths
  // -------------------------------------------------------------------------

  /** Sessions lead to other nodes of the network. */
  ghost predicate Topology(links: Links) {
    forall u :: u in links ==> links[u] <= links.Keys && u !in links[u]
  }

  function NamedPeer(name: string): PeerRecord {
    PeerRecord(PeerInfo(name, [], None, None, None, None), Connected, 0, DEFAULT_HOLD_TIME, 0, 0)
  }

  function NamedPeers(names: seq<string>): seq<PeerRecord> {
    seq(|names|, i requires 0 <= i < |names| => NamedPeer(names[i]))
  }

  /** A network with the sessions of `links` up and nothing announced. */
  ghost function FreshNet(links: Links): Net {
    Net(map u | u in links :: NodeConfig(u, None, NoPolicy),
        map u | u in links :: BusState(RouteTable([], NamedPeers(Enumerate(links[u])), []), None, map[]),
        multiset{})
  }

  lemma NamedPeersConnected(names: seq<string>)
    ensures ConnectedNames(RouteTable([], NamedPeers(names), [])) == set x | x in names
  {
    var ps := NamedPeers(names);
    forall x | x in names ensures x in ConnectedNames(RouteTable([], ps, [])) {
      var i :| 0 <= i < |names| && names[i] == x;
      assert ps[i] in ps && PeerName(ps[i]) == x;
    }
  }

  lemma NamedPeersDistinct(names: seq<string>, u: string)
    requires u !in names && Distinct(names)
    ensures Unique(PeerName, NamedPeers(names)) && forall p :: p in NamedPeers(names) ==> PeerName(p) != u
  {
    var ps := NamedPeers(names);
    forall i, j | 0 <= i < j < |ps| ensures PeerName(ps[i]) != PeerName(ps[j]) {
      assert ps[i] == NamedPeer(names[i]) && ps[j] == NamedPeer(names[j]);
    }
    forall p | p in ps ensures PeerName(p) != u {
      var i :| 0 <= i < |ps| && ps[i] == p;
      assert p == NamedPeer(names[i]) && names[i] in names;
    }
  }

  lemma FreshNode(links: Links, u: string)
    requires Topology(links) && u in links
    ensures var t := FreshNet(links).nodes[u].table;
            && ConnectedNames(t) == links[u] && t.local == [] && t.internal == []
            && Unique(PeerName, t.peers) && forall p :: p in t.peers ==> PeerName(p) != u
  {
    var names := Enumerate(links[u]);
    NamedPeersConnected(names);
    EnumerateDistinct(links[u]);
    NamedPeersDistinct(names, u);
    assert (set x | x in names) == links[u];
  }

  lemma FreshNetIsFresh(links: Links)
    requires Topology(links)
    ensures FreshSessions(links, FreshNet(links))
  {
    var net := FreshNet(links);
    assert net.nodes.Keys == links.Keys && net.cfgs.Keys == links.Keys;
    assert Plain(net);
    forall u | u in links
      ensures var t := net.nodes[u].table;
              && ConnectedNames(t) == links[u] && t.local == [] && t.internal == []
              && Unique(PeerName, t.peers) && forall p :: p in t.peers ==> PeerName(p) != u
    {
      FreshNode(links, u);
    }
  }

  lemma AnnounceFirst(links: Links, net: Net, e: Event, rest: seq<Event>)
    requires Plain(net) && Enabled(net, e) && Announcing(links, net, e)
    requires Plain(Exec(net, e)) && AnnouncementRun(links, Exec(net, e), rest)
    ensures AnnouncementRun(links, net, [e] + rest)
    ensures RunNet(net, [e] + rest) == RunNet(Exec(net, e), rest)
  {
    assert ([e] + rest)[1..] == rest;
  }

  /** From any point of an announcement run, one more announcement can be carried to every node it concerns. */
  lemma AnnounceAndDrain(links: Links, net: Net, o: string, ch: DataChannel, clock: int) returns (es: seq<Event>)
    requires FloodInv(links, net) && o in links
    ensures AnnouncementRun(links, net, es) && |es| > 0
    ensures es[0] == Local(o, LocalRouteCreate(ch), clock, links.Keys)
    ensures RunNet(net, es).flight == multiset{} && FloodInv(links, RunNet(net, es))
  {
    var e := Local(o, LocalRouteCreate(ch), clock, links.Keys);
    assert links[o] <= links.Keys;
    StepKeepsFlood(links, net, e);
    var next := Exec(net, e);
    var sc := ScaleExists(next);
    var rest := Drains(sc, links, next, clock, Measure(sc, next));
    AnnounceFirst(links, net, e, rest);
    es := [e] + rest;
    RunKeepsFlood(links, net, es);
  }

  lemma {:induction false} AnnouncedStays(links: Links, net: Net, es: seq<Event>, o: string, name: string)
    requires FloodInv(links, net) && AnnouncementRun(links, net, es) && Originates(net, o, name)
    ensures Originates(RunNet(net, es), o, name)
    decreases es
  {
    if |es| > 0 {
      StepOriginates(links, net, es[0], o, name);
      StepKeepsFlood(links, net, es[0]);
      AnnouncedStays(links, Exec(net, es[0]), es[1..], o, name);
    }
  }

  lemma StepOriginates(links: Links, net: Net, e: Event, o: string, name: string)
    requires FloodInv(links, net) && Enabled(net, e) && Announcing(links, net, e) && Originates(net, o, name)
    ensures Originates(Exec(net, e), o, name)
  {
    if e.Deliver? {
      DeliveryOriginates(links, net, e.msg, e.info, e.clock, e.up, o, name);
    } else {
      AnnouncementOriginates(net, e.node, e.action.ch, e.clock, e.up, o, name);
    }
  }

  lemma AnnouncementOriginates(net: Net, v: string, ch: DataChannel, clock: int, up: set<string>, o: string, name: string)
    requires Plain(net) && v in net.nodes
    requires Originates(net, o, name) || (o == v && name == ch.name)
    ensures Originates(Announced(net, v, ch, clock, up), o, name)
  {
    if Find(ChannelName, net.nodes[v].table.local, ch.name).Some? {
      DuplicateIgnored(net, v, ch, clock, up);
    } else {
      AnnouncedLookups(net.cfgs[v], net.nodes[v], ch, clock, up, name, RouteKey(name, o));
    }
  }

  /** On any topology, an announcement made on fresh sessions can be carried through, and then every other node holds
      the route exactly when the origin can reach it, at hop distance. */
  lemma AnyTopologyConverges(links: Links, o: string, ch: DataChannel, clock: int, v: string) returns (es: seq<Event>)
    requires Topology(links) && o in links && v in links && v != o
    ensures Plain(FreshNet(links)) && AnnouncementRun(links, FreshNet(links), es)
    ensures var end := RunNet(FreshNet(links), es);
            && end.flight == multiset{} && v in end.nodes
            && (HeldAt(end, v, RouteKey(ch.name, o)).Some? <==> Reachable(links, v, o))
            && (HeldAt(end, v, RouteKey(ch.name, o)).Some? ==> HopDistance(links, v, o, |HeldAt(end, v, RouteKey(ch.name, o)).value.nodePath|))
  {
    var net := FreshNet(links);
    FreshNetIsFresh(links);
    FreshIsFlood(links, net);
    es := AnnounceAndDrain(links, net, o, ch, clock);
    var next := Exec(net, es[0]);
    StepKeepsFlood(links, net, es[0]);
    AnnouncementOriginates(net, o, ch, clock, links.Keys, o, ch.name);
    AnnouncedStays(links, next, es[1..], o, ch.name);
    QuietIsConverged(links, RunNet(net, es), v, RouteKey(ch.name, o));
  }
}
