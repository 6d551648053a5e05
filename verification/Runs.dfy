/** Runs of actions on one table, and what the wall clock can and cannot influence. */
module Runs {
  import opened KeyedLists
  import opened RouteTypes
  import opened Rib
  import opened RibTheorems

  /** An action together with the wall-clock reading at which it is planned. */
  datatype Timed = At(action: Action, clock: int)

  /** The table after planning and committing the actions in order. */
  function Replay(self: string, acts: seq<Timed>, t: RouteTable): RouteTable {
    if |acts| == 0 then t
    else Replay(self, acts[1..], Planned(self, acts[0].action, t, acts[0].clock).next)
  }

  lemma {:induction false} ReplayAppend(self: string, acts: seq<Timed>, more: seq<Timed>, t: RouteTable)
    ensures Replay(self, acts + more, t) == Replay(self, more, Replay(self, acts, t))
  {
    if |acts| == 0 {
      assert acts + more == more;
    } else {
      assert (acts + more)[1..] == acts[1..] + more;
      ReplayAppend(self, acts[1..], more, Planned(self, acts[0].action, t, acts[0].clock).next);
    }
  }

  lemma {:induction false} ReplayKeepsWellFormed(self: string, acts: seq<Timed>, t: RouteTable)
    requires WellFormed(self, t)
    ensures WellFormed(self, Replay(self, acts, t))
  {
    if |acts| > 0 {
      PlanKeepsWellFormed(self, acts[0].action, t, acts[0].clock);
      ReplayKeepsWellFormed(self, acts[1..], Planned(self, acts[0].action, t, acts[0].clock).next);
    }
  }

  // -------------------------------------------------------------------------
  // Clock independence
  // -------------------------------------------------------------------------

  function Timeless(p: PeerRecord): PeerRecord { p.(lastReceived := 0, lastConnected := 0) }

  ghost predicate SamePeers(ps: seq<PeerRecord>, qs: seq<PeerRecord>) {
    |ps| == |qs| && forall i :: 0 <= i < |ps| ==> Timeless(ps[i]) == Timeless(qs[i])
  }

  /** Equal except for `lastReceived` and `lastConnected`. */
  ghost predicate SameButTimes(t: RouteTable, u: RouteTable) {
    t.local == u.local && t.internal == u.internal && SamePeers(t.peers, u.peers)
  }

  lemma {:induction false} SameIndex(ps: seq<PeerRecord>, qs: seq<PeerRecord>, name: string)
    requires SamePeers(ps, qs)
    ensures IndexOf(PeerName, ps, name) == IndexOf(PeerName, qs, name)
  {
    if |ps| > 0 {
      assert PeerName(Timeless(ps[0])) == PeerName(Timeless(qs[0]));
      assert forall i :: 0 <= i < |ps[1..]| ==> ps[1..][i] == ps[i + 1] && qs[1..][i] == qs[i + 1];
      SameIndex(ps[1..], qs[1..], name);
    }
  }

  lemma {:induction false} SameRest(ps: seq<PeerRecord>, qs: seq<PeerRecord>, names: set<string>)
    requires SamePeers(ps, qs)
    ensures SamePeers(Without(PeerName, ps, names), Without(PeerName, qs, names))
  {
    if |ps| > 0 {
      assert PeerName(Timeless(ps[0])) == PeerName(Timeless(qs[0]));
      assert forall i :: 0 <= i < |ps[1..]| ==> ps[1..][i] == ps[i + 1] && qs[1..][i] == qs[i + 1];
      SameRest(ps[1..], qs[1..], names);
    }
  }

  ghost predicate DecidesAlike(p: PlanResult, p': PlanResult) {
    && p.changed == p'.changed && p.changes == p'.changes && p.portOps == p'.portOps
    && SameButTimes(p.next, p'.next)
  }

  lemma SessionIgnoresClock(self: string, a: Action, t: RouteTable, clock: int, t': RouteTable, clock': int)
    requires SameButTimes(t, t')
    requires a.InternalProtocolOpen? || a.InternalProtocolConnected? || a.InternalProtocolClose? || a.InternalProtocolKeepalive?
    ensures DecidesAlike(Planned(self, a, t, clock), Planned(self, a, t', clock'))
  {
    SameIndex(t.peers, t'.peers, a.info.name);
    var i := IndexOf(PeerName, t.peers, a.info.name);
    if i >= 0 {
      assert Timeless(t.peers[i]) == Timeless(t'.peers[i]);
    }
  }

  lemma LocalIgnoresClock(self: string, a: Action, t: RouteTable, clock: int, t': RouteTable, clock': int)
    requires SameButTimes(t, t')
    requires a.LocalPeerCreate? || a.LocalPeerUpdate? || a.LocalPeerDelete?
    ensures DecidesAlike(Planned(self, a, t, clock), Planned(self, a, t', clock'))
  {
    if a.LocalPeerDelete? {
      SameRest(t.peers, t'.peers, {a.name});
    } else {
      SameIndex(t.peers, t'.peers, a.info.name);
      var i := IndexOf(PeerName, t.peers, a.info.name);
      if i >= 0 {
        assert Timeless(t.peers[i]) == Timeless(t'.peers[i]);
      }
    }
  }

  lemma UpdateIgnoresClock(info: PeerInfo, e: Effect, t: RouteTable, clock: int, t': RouteTable, clock': int)
    requires SameButTimes(t, t')
    requires |e.changes| == 0 ==> e.routes == t.internal && e.portOps == []
    ensures DecidesAlike(UpdateResult(info, e, t, clock), UpdateResult(info, e, t', clock'))
  {
    SameIndex(t.peers, t'.peers, info.name);
    var i := IndexOf(PeerName, t.peers, info.name);
    if i >= 0 {
      assert Timeless(t.peers[i]) == Timeless(t'.peers[i]);
    }
  }

  /** The clock cannot change what an action other than Tick decides or does to routes. */
  lemma PlanIgnoresClock(self: string, a: Action, t: RouteTable, clock: int, t': RouteTable, clock': int)
    requires SameButTimes(t, t') && !a.Tick?
    ensures DecidesAlike(Planned(self, a, t, clock), Planned(self, a, t', clock'))
  {
    match a
    case InternalProtocolUpdate(info, us) =>
      ItemLoopReports(self, info, us, t.internal);
      UpdateIgnoresClock(info, ItemLoop(self, info, us, t.internal), t, clock, t', clock');
    case LocalRouteCreate(ch) =>
    case LocalRouteDelete(name) =>
    case LocalRouteHealthUpdate(name, h, l, c) =>
    case LocalPeerCreate(_) => LocalIgnoresClock(self, a, t, clock, t', clock');
    case LocalPeerUpdate(_) => LocalIgnoresClock(self, a, t, clock, t', clock');
    case LocalPeerDelete(_) => LocalIgnoresClock(self, a, t, clock, t', clock');
    case _ => SessionIgnoresClock(self, a, t, clock, t', clock');
  }

  /** The same actions, read at other times. */
  predicate SameActions(acts: seq<Timed>, acts': seq<Timed>) {
    |acts| == |acts'| && forall i :: 0 <= i < |acts| ==> acts[i].action == acts'[i].action
  }

  predicate TickFree(acts: seq<Timed>) {
    forall i :: 0 <= i < |acts| ==> !acts[i].action.Tick?
  }

  /** Which actions of a run change the table. */
  function Decisions(self: string, acts: seq<Timed>, t: RouteTable): seq<bool> {
    if |acts| == 0 then []
    else
      var plan := Planned(self, acts[0].action, t, acts[0].clock);
      [plan.changed] + Decisions(self, acts[1..], plan.next)
  }

  /** Two executions of a Tick-free run under different clocks decide alike and hold the same routes. */
  lemma {:induction false} RunIgnoresClock(self: string, acts: seq<Timed>, acts': seq<Timed>, t: RouteTable, t': RouteTable)
    requires SameActions(acts, acts') && TickFree(acts) && SameButTimes(t, t')
    ensures Decisions(self, acts, t) == Decisions(self, acts', t')
    ensures SameButTimes(Replay(self, acts, t), Replay(self, acts', t'))
  {
    if |acts| > 0 {
      PlanIgnoresClock(self, acts[0].action, t, acts[0].clock, t', acts'[0].clock);
      RunIgnoresClock(self, acts[1..], acts'[1..],
                      Planned(self, acts[0].action, t, acts[0].clock).next,
                      Planned(self, acts'[0].action, t', acts'[0].clock).next);
    }
  }

  // -------------------------------------------------------------------------
  // Tick absorption
  // -------------------------------------------------------------------------

  function AfterTick(now: int, t: RouteTable): RouteTable { PlannedTick(now, t).next }

  lemma PurgedIff(now: int, t: RouteTable, name: string)
    ensures name in Purged(now, t) <==>
            exists i :: 0 <= i < |t.peers| && PeerName(t.peers[i]) == name && HoldElapsed(t.peers[i], now)
              && (t.peers[i].status == Connected || (t.peers[i].status == Closed && HasStale(t.internal, name)))
  {
    var peers := CloseAllExpired(t.peers, now);
    if name in ExpiredNames(t.peers, now) {
      var p :| p in t.peers && Expires(p, now) && PeerName(p) == name;
      var i :| 0 <= i < |t.peers| && t.peers[i] == p;
    } else if name in GraceOverNames(peers, now, t.internal) {
      var p :| p in peers && GraceOver(p, now, t.internal) && PeerName(p) == name;
      var i :| 0 <= i < |peers| && peers[i] == p;
      assert PeerName(t.peers[i]) == name && HoldElapsed(t.peers[i], now);
    }
    forall i | 0 <= i < |t.peers| && PeerName(t.peers[i]) == name && HoldElapsed(t.peers[i], now)
      && (t.peers[i].status == Connected || (t.peers[i].status == Closed && HasStale(t.internal, name)))
      ensures name in Purged(now, t)
    {
      if t.peers[i].status == Closed {
        assert peers[i] in peers && GraceOver(peers[i], now, t.internal);
      }
    }
  }

  lemma TickTable(now: int, t: RouteTable)
    ensures AfterTick(now, t) == RouteTable(t.local, CloseAllExpired(t.peers, now), Without(Via, t.internal, Purged(now, t)))
  {
    if Purged(now, t) == {} {
      WithoutNone(Via, t.internal, {});
      forall i | 0 <= i < |t.peers| ensures CloseExpired(t.peers[i], now) == t.peers[i] {
        PurgedIff(now, t, PeerName(t.peers[i]));
      }
    }
  }

  lemma SecondPurge(t1: int, t2: int, t: RouteTable, name: string)
    requires t1 <= t2
    ensures name in Purged(t1, t) + Purged(t2, AfterTick(t1, t)) <==> name in Purged(t2, t)
  {
    var u := AfterTick(t1, t);
    TickTable(t1, t);
    PurgedIff(t1, t, name);
    PurgedIff(t2, t, name);
    PurgedIff(t2, u, name);
    if name !in Purged(t1, t) {
      assert HasStale(t.internal, name) <==> HasStale(u.internal, name);
      forall i | 0 <= i < |t.peers| && PeerName(t.peers[i]) == name
        ensures u.peers[i] == t.peers[i] || (HoldElapsed(t.peers[i], t1) && t.peers[i].status == Connected) {}
    }
  }

  lemma ClosedTwice(ps: seq<PeerRecord>, t1: int, t2: int)
    requires t1 <= t2
    ensures CloseAllExpired(CloseAllExpired(ps, t1), t2) == CloseAllExpired(ps, t2)
  {
    assert forall i :: 0 <= i < |ps| ==> CloseExpired(CloseExpired(ps[i], t1), t2) == CloseExpired(ps[i], t2);
  }

  lemma PurgedTwice(t1: int, t2: int, t: RouteTable)
    requires t1 <= t2
    ensures Without(Via, Without(Via, t.internal, Purged(t1, t)), Purged(t2, AfterTick(t1, t))) == Without(Via, t.internal, Purged(t2, t))
  {
    var first, second := Purged(t1, t), Purged(t2, AfterTick(t1, t));
    WithoutTwice(Via, t.internal, first, second);
    forall name ensures name in first + second <==> name in Purged(t2, t) {
      SecondPurge(t1, t2, t, name);
    }
    assert first + second == Purged(t2, t);
  }

  /** A tick absorbs every earlier tick. */
  lemma TickAbsorbs(t1: int, t2: int, t: RouteTable)
    requires t1 <= t2
    ensures AfterTick(t2, AfterTick(t1, t)) == AfterTick(t2, t)
  {
    TickTable(t1, t);
    TickTable(t2, t);
    TickTable(t2, AfterTick(t1, t));
    ClosedTwice(t.peers, t1, t2);
    PurgedTwice(t1, t2, t);
  }

  /** After a tick no session is past its hold time and no closed peer keeps stale routes past its grace period. */
  lemma TickSettles(now: int, t: RouteTable)
    ensures var u := AfterTick(now, t);
            && (forall p :: p in u.peers && p.status == Connected ==> !HoldElapsed(p, now))
            && (forall p, r :: p in u.peers && p.status == Closed && HoldElapsed(p, now) && r in u.internal && Via(r) == PeerName(p) ==> !r.isStale)
    ensures !PlannedTick(now, AfterTick(now, t)).changed
  {
    var u := AfterTick(now, t);
    TickTable(now, t);
    forall p | p in u.peers
      ensures p.status == Connected ==> !HoldElapsed(p, now)
      ensures p.status == Closed && HoldElapsed(p, now) ==> !HasStale(u.internal, PeerName(p))
    {
      var i :| 0 <= i < |u.peers| && u.peers[i] == p;
      assert p == CloseExpired(t.peers[i], now);
      PurgedIff(now, t, PeerName(p));
    }
    forall name ensures name !in Purged(now, u) {
      PurgedIff(now, u, name);
      assert forall i :: 0 <= i < |u.peers| ==> u.peers[i] in u.peers;
    }
  }
}
