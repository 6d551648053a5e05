/** A test, session by session, for whether the routes held in a network are the shortest. */
module Stability {
  import opened KeyedLists
  import opened RouteTypes
  import opened Network
  import opened Flooding

  /** How far `v` believes itself from the origin of `k`. */
  function Hops(net: Net, v: string, k: RouteKey): Option<nat>
    requires v in net.nodes
  {
    if v == k.origin then
      if Find(ChannelName, net.nodes[v].table.local, k.name).Some? then Some(0) else None
    else
      match HeldAt(net, v, k) case Some(r) => Some(|r.nodePath|) case None => None
  }

  /** Over the session from `u` to `w` nothing is left to tell. */
  predicate NothingToTell(net: Net, u: string, w: string, k: RouteKey)
    requires u in net.nodes && w in net.nodes
  {
    w != k.origin && Hops(net, u, k).Some? ==> Hops(net, w, k).Some? && Hops(net, w, k).value <= Hops(net, u, k).value + 1
  }

  /** What `w` holds, some neighbour that tells it holds at least one hop nearer. */
  ghost predicate Supported(links: Links, net: Net, w: string, k: RouteKey)
    requires net.nodes.Keys == links.Keys && w in links
  {
    w != k.origin && Hops(net, w, k).Some? ==>
      exists u :: Supports(links, net, u, w, k)
  }

  predicate Supports(links: Links, net: Net, u: string, w: string, k: RouteKey)
    requires net.nodes.Keys == links.Keys && w in links
  {
    u in links && w in links[u] && Hops(net, u, k).Some? && Hops(net, w, k).Some? && Hops(net, u, k).value < Hops(net, w, k).value
  }

  ghost predicate Graph(links: Links, net: Net) {
    net.nodes.Keys == links.Keys && forall u :: u in links ==> links[u] <= links.Keys
  }

  /** Every session agrees: nothing left to tell over it, and everything held is supported. */
  ghost predicate LocallyStable(links: Links, net: Net, k: RouteKey)
    requires Graph(links, net)
  {
    && (forall u, w :: u in links && w in links[u] ==> NothingToTell(net, u, w, k))
    && AllSupported(links, net, k)
  }

  ghost predicate AllSupported(links: Links, net: Net, k: RouteKey)
    requires Graph(links, net)
  {
    forall w :: w in links ==> Supported(links, net, w, k)
  }

  /** Each node other than the origin holds a route exactly when the origin announces it and can reach the node, at hop
      distance. */
  ghost predicate Shortest(links: Links, net: Net, k: RouteKey)
    requires Graph(links, net)
  {
    forall v :: v in links && v != k.origin ==> ShortestAt(links, net, v, k)
  }

  ghost predicate ShortestAt(links: Links, net: Net, v: string, k: RouteKey)
    requires v in net.nodes
  {
    && (HeldAt(net, v, k).Some? <==> Originates(net, k.origin, k.name) && Reachable(links, v, k.origin))
    && (HeldAt(net, v, k).Some? ==> HopDistance(links, v, k.origin, |HeldAt(net, v, k).value.nodePath|))
  }

  lemma WalkTail(links: Links, walk: seq<string>)
    requires Walk(links, walk) && |walk| > 1
    ensures Walk(links, walk[1..]) && walk[0] in links[walk[1]]
  {
    var rest := walk[1..];
    assert walk[0] in links[walk[0 + 1]];
    forall i | 0 <= i < |rest| - 1 ensures rest[i] in links[rest[i + 1]] {
      assert walk[i + 1] in links[walk[(i + 1) + 1]];
    }
  }

  lemma WalkCons(links: Links, w: string, walk: seq<string>)
    requires Walk(links, walk) && w in links && w in links[walk[0]]
    ensures Walk(links, [w] + walk)
  {
    var longer := [w] + walk;
    forall i | 0 <= i < |longer| - 1 ensures longer[i] in links[longer[i + 1]] {
      if i > 0 {
        assert longer[i] == walk[i - 1] && longer[i + 1] == walk[i];
      }
    }
  }

  /** What the origin announces is held along any walk, no further than the walk is long. */
  lemma {:induction false} StableAlongWalk(links: Links, net: Net, k: RouteKey, walk: seq<string>)
    requires Graph(links, net) && LocallyStable(links, net, k) && Walk(links, walk)
    requires walk[|walk| - 1] == k.origin && Originates(net, k.origin, k.name)
    ensures Hops(net, walk[0], k).Some? && Hops(net, walk[0], k).value <= |walk| - 1
    decreases |walk|
  {
    if |walk| > 1 {
      WalkTail(links, walk);
      StableAlongWalk(links, net, k, walk[1..]);
      assert NothingToTell(net, walk[1], walk[0], k);
    }
  }

  /** What is held traces back to the origin in no more hops. */
  lemma {:induction false} SupportedWalk(links: Links, net: Net, k: RouteKey, v: string) returns (walk: seq<string>)
    requires Graph(links, net) && AllSupported(links, net, k) && v in links && Hops(net, v, k).Some?
    ensures Walk(links, walk) && walk[0] == v && walk[|walk| - 1] == k.origin && |walk| <= Hops(net, v, k).value + 1
    ensures Originates(net, k.origin, k.name)
    decreases Hops(net, v, k).value
  {
    if v == k.origin {
      walk := [v];
    } else {
      assert Supported(links, net, v, k);
      var u :| Supports(links, net, u, v, k);
      var rest := SupportedWalk(links, net, k, u);
      WalkCons(links, v, rest);
      walk := [v] + rest;
    }
  }

  lemma StableIsShortest(links: Links, net: Net, k: RouteKey, v: string)
    requires Graph(links, net) && LocallyStable(links, net, k) && v in links && v != k.origin
    ensures ShortestAt(links, net, v, k)
  {
    if HeldAt(net, v, k).Some? {
      var walk := SupportedWalk(links, net, k, v);
      StableAlongWalk(links, net, k, walk);
      forall other | Walk(links, other) && other[0] == v && other[|other| - 1] == k.origin ensures |other| >= |walk| {
        StableAlongWalk(links, net, k, other);
      }
    }
    forall walk | Walk(links, walk) && walk[0] == v && walk[|walk| - 1] == k.origin && Originates(net, k.origin, k.name)
      ensures HeldAt(net, v, k).Some?
    {
      StableAlongWalk(links, net, k, walk);
    }
  }

  /** Distances of shortest routes, as walks. */
  lemma ShortestWalk(links: Links, net: Net, k: RouteKey, v: string) returns (walk: seq<string>)
    requires Graph(links, net) && Shortest(links, net, k) && v in links && Hops(net, v, k).Some?
    ensures Walk(links, walk) && walk[0] == v && walk[|walk| - 1] == k.origin && |walk| == Hops(net, v, k).value + 1
    ensures Originates(net, k.origin, k.name)
  {
    if v == k.origin {
      walk := [v];
    } else {
      assert ShortestAt(links, net, v, k);
      walk :| Walk(links, walk) && walk[0] == v && walk[|walk| - 1] == k.origin && |walk| == Hops(net, v, k).value + 1;
    }
  }

  lemma ShortestBound(links: Links, net: Net, k: RouteKey, walk: seq<string>)
    requires Graph(links, net) && Shortest(links, net, k) && Walk(links, walk) && walk[|walk| - 1] == k.origin
    requires Originates(net, k.origin, k.name)
    ensures Hops(net, walk[0], k).Some? && Hops(net, walk[0], k).value <= |walk| - 1
  {
    var v := walk[0];
    if v != k.origin {
      assert ShortestAt(links, net, v, k);
      assert Reachable(links, v, k.origin);
    }
  }

  lemma ShortestIsStable(links: Links, net: Net, k: RouteKey)
    requires Graph(links, net) && Shortest(links, net, k)
    ensures LocallyStable(links, net, k)
  {
    forall u, w | u in links && w in links[u] ensures NothingToTell(net, u, w, k) {
      if w != k.origin && Hops(net, u, k).Some? {
        var walk := ShortestWalk(links, net, k, u);
        WalkCons(links, w, walk);
        ShortestBound(links, net, k, [w] + walk);
      }
    }
    forall w | w in links ensures Supported(links, net, w, k) {
      if w != k.origin && Hops(net, w, k).Some? {
        var walk := ShortestWalk(links, net, k, w);
        WalkTail(links, walk);
        ShortestBound(links, net, k, walk[1..]);
        assert Supports(links, net, walk[1], w, k);
      }
    }
  }

  /** In any state of any network, whatever led there: the routes held for a key are the shortest everywhere exactly when
      every session agrees. */
  lemma ShortestIff(links: Links, net: Net, k: RouteKey)
    requires Graph(links, net)
    ensures Shortest(links, net, k) <==> LocallyStable(links, net, k)
  {
    if Shortest(links, net, k) {
      ShortestIsStable(links, net, k);
    }
    if LocallyStable(links, net, k) {
      forall v | v in links && v != k.origin ensures ShortestAt(links, net, v, k) {
        StableIsShortest(links, net, k, v);
      }
    }
  }
}
