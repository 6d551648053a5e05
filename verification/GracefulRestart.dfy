/** The window between a transport failure and the purge of the failed peer's routes. */
module GracefulRestart {
  import opened KeyedLists
  import opened RouteTypes
  import opened Rib
  import opened RibTheorems
  import opened Runs

  /** The action was caused by a message from, or a new connection to, peer `name`. */
  predicate From(a: Action, name: string) {
    match a
    case InternalProtocolOpen(info, _) => info.name == name
    case InternalProtocolConnected(info) => info.name == name
    case InternalProtocolUpdate(info, _) => info.name == name
    case InternalProtocolKeepalive(info) => info.name == name
    case _ => false
  }

  predicate Silent(acts: seq<Timed>, name: string) {
    forall i :: 0 <= i < |acts| ==> !From(acts[i].action, name)
  }

  ghost predicate NoneVia(t: RouteTable, name: string) {
    forall r :: r in t.internal ==> Via(r) != name
  }

  /** Peer `name` is closed since it was last heard at `last`, and all its routes are stale; or it has none. */
  ghost predicate Waiting(t: RouteTable, name: string, hold: int, last: int) {
    || NoneVia(t, name)
    || (&& (exists p :: p in t.peers && PeerName(p) == name && p.status == Closed && p.holdTime == hold && p.lastReceived == last)
        && forall r :: r in t.internal && Via(r) == name ==> r.isStale)
  }

  lemma {:induction false} LoopAddsNoneVia(self: string, from: PeerInfo, us: seq<UpdateItem>, routes: seq<InternalRoute>, r: InternalRoute)
    requires r in ItemLoop(self, from, us, routes).routes && Via(r) != from.name
    ensures r in routes
  {
    if |us| > 0 {
      LoopAddsNoneVia(self, from, us[1..], ItemStep(self, from, us[0], routes).routes, r);
    }
  }

  lemma {:induction false} LoopKeepsUntaken(self: string, from: PeerInfo, us: seq<UpdateItem>, routes: seq<InternalRoute>, r: InternalRoute)
    requires r in routes && forall u :: u in us && ItemKey(u) == KeyOf(r) ==> u.verb.Add? && self in u.nodePath
    ensures r in ItemLoop(self, from, us, routes).routes
  {
    if |us| > 0 {
      assert us[0] in us;
      var i := IndexOf(KeyOf, routes, ItemKey(us[0]));
      var mid := ItemStep(self, from, us[0], routes).routes;
      var j :| 0 <= j < |routes| && routes[j] == r;
      assert us[0].verb.Remove? || (|mid| > j && mid[j] == r);
      LoopKeepsUntaken(self, from, us[1..], mid, r);
    }
  }

  lemma RecordKept(a: Action, self: string, t: RouteTable, clock: int, p: PeerRecord)
    requires WellFormed(self, t) && p in t.peers && p.status == Closed
    requires !From(a, PeerName(p)) && a != LocalPeerDelete(PeerName(p))
    ensures exists q :: q in Planned(self, a, t, clock).next.peers
              && PeerName(q) == PeerName(p) && q.status == Closed && q.holdTime == p.holdTime && q.lastReceived == p.lastReceived
  {
    var i :| 0 <= i < |t.peers| && t.peers[i] == p;
    var peers := Planned(self, a, t, clock).next.peers;
    match a
    case LocalPeerDelete(name) => assert p in peers;
    case LocalPeerCreate(info) => assert peers[i] == p;
    case _ =>
      assert |peers| == |t.peers|;
      assert peers[i] in peers;
  }

  /** Without a message from the peer, every action keeps it waiting. */
  lemma WaitingKept(self: string, a: Action, t: RouteTable, clock: int, name: string, hold: int, last: int)
    requires WellFormed(self, t) && Waiting(t, name, hold, last) && !From(a, name)
    ensures Waiting(Planned(self, a, t, clock).next, name, hold, last)
  {
    var u := Planned(self, a, t, clock).next;
    forall r | r in u.internal && Via(r) == name
      ensures r in t.internal
    {
      match a
      case InternalProtocolUpdate(info, us) =>
        ItemLoopReports(self, info, us, t.internal);
        LoopAddsNoneVia(self, info, us, t.internal, r);
      case InternalProtocolClose(info, code) =>
        var i :| 0 <= i < |u.internal| && u.internal[i] == r;
        if code == TRANSPORT_ERROR {
          assert t.internal[i] in t.internal && Via(t.internal[i]) == name;
        }
      case _ => assert r in t.internal;
    }
    if !NoneVia(t, name) && !NoneVia(u, name) {
      var p :| p in t.peers && PeerName(p) == name && p.status == Closed && p.holdTime == hold && p.lastReceived == last;
      RecordKept(a, self, t, clock, p);
    }
  }

  lemma {:induction false} SilenceKeepsWaiting(self: string, acts: seq<Timed>, t: RouteTable, name: string, hold: int, last: int)
    requires WellFormed(self, t) && Waiting(t, name, hold, last) && Silent(acts, name)
    ensures Waiting(Replay(self, acts, t), name, hold, last)
  {
    if |acts| > 0 {
      WaitingKept(self, acts[0].action, t, acts[0].clock, name, hold, last);
      PlanKeepsWellFormed(self, acts[0].action, t, acts[0].clock);
      SilenceKeepsWaiting(self, acts[1..], Planned(self, acts[0].action, t, acts[0].clock).next, name, hold, last);
    }
  }

  lemma {:induction false} SilenceKeepsNone(self: string, acts: seq<Timed>, t: RouteTable, name: string)
    requires WellFormed(self, t) && NoneVia(t, name) && Silent(acts, name)
    ensures NoneVia(Replay(self, acts, t), name)
  {
    if |acts| > 0 {
      var a, u := acts[0].action, Planned(self, acts[0].action, t, acts[0].clock).next;
      forall r | r in u.internal ensures Via(r) != name {
        match a
        case InternalProtocolUpdate(info, us) =>
          ItemLoopReports(self, info, us, t.internal);
          if Via(r) != info.name {
            LoopAddsNoneVia(self, info, us, t.internal, r);
          }
        case InternalProtocolClose(info, code) =>
          var i :| 0 <= i < |u.internal| && u.internal[i] == r;
          if code == TRANSPORT_ERROR {
            assert t.internal[i] in t.internal && Via(r) == Via(t.internal[i]);
          }
        case _ =>
      }
      PlanKeepsWellFormed(self, a, t, acts[0].clock);
      SilenceKeepsNone(self, acts[1..], u, name);
    }
  }

  lemma DeadlinePurges(now: int, t: RouteTable, name: string, hold: int, last: int)
    requires Waiting(t, name, hold, last) && hold > 0 && last > 0 && now - last > hold
    ensures NoneVia(AfterTick(now, t), name)
  {
    TickTable(now, t);
    if !NoneVia(t, name) {
      var r :| r in t.internal && Via(r) == name;
      var p :| p in t.peers && PeerName(p) == name && p.status == Closed && p.holdTime == hold && p.lastReceived == last;
      var i :| 0 <= i < |t.peers| && t.peers[i] == p;
      assert HasStale(t.internal, name);
      PurgedIff(now, t, name);
    }
  }

  /** What, other than a message from the peer itself, can take route `r` away before the deadline. */
  predicate Takes(self: string, a: Action, r: InternalRoute, deadline: int) {
    match a
    case InternalProtocolUpdate(_, us) => exists u :: u in us && ItemKey(u) == KeyOf(r) && (u.verb.Remove? || self !in u.nodePath)
    case LocalPeerDelete(name) => name == Via(r)
    case InternalProtocolClose(info, code) => info.name == Via(r) && code != TRANSPORT_ERROR
    case Tick(now) => now > deadline
    case _ => false
  }

  lemma StaleRouteStays(self: string, a: Action, t: RouteTable, clock: int, r: InternalRoute, hold: int, last: int)
    requires WellFormed(self, t) && r in t.internal && Waiting(t, Via(r), hold, last)
    requires !From(a, Via(r)) && !Takes(self, a, r, last + hold)
    ensures r in Planned(self, a, t, clock).next.internal
  {
    match a
    case InternalProtocolUpdate(info, us) => LoopKeepsUntaken(self, info, us, t.internal, r);
    case InternalProtocolClose(info, code) =>
      if code == TRANSPORT_ERROR {
        var i :| 0 <= i < |t.internal| && t.internal[i] == r;
        assert StaleVia(t.internal, info.name)[i] == r;
      }
    case Tick(now) =>
      TickTable(now, t);
      PurgedIff(now, t, Via(r));
      var p :| p in t.peers && PeerName(p) == Via(r) && p.status == Closed && p.holdTime == hold && p.lastReceived == last;
      forall i | 0 <= i < |t.peers| && PeerName(t.peers[i]) == Via(r) ensures t.peers[i] == p {
        UniqueMember(PeerName, t.peers, t.peers[i], p);
      }
    case _ =>
  }

  lemma {:induction false} StaleRouteSurvives(self: string, acts: seq<Timed>, t: RouteTable, r: InternalRoute, hold: int, last: int)
    requires WellFormed(self, t) && r in t.internal && Waiting(t, Via(r), hold, last) && Silent(acts, Via(r))
    requires forall i :: 0 <= i < |acts| ==> !Takes(self, acts[i].action, r, last + hold)
    ensures r in Replay(self, acts, t).internal
  {
    if |acts| > 0 {
      var a, clock := acts[0].action, acts[0].clock;
      StaleRouteStays(self, a, t, clock, r, hold, last);
      WaitingKept(self, a, t, clock, Via(r), hold, last);
      PlanKeepsWellFormed(self, a, t, clock);
      StaleRouteSurvives(self, acts[1..], Planned(self, a, t, clock).next, r, hold, last);
    }
  }

  lemma TransportCloseWaits(self: string, p: PeerRecord, info: PeerInfo, t: RouteTable, clock: int)
    requires WellFormed(self, t) && p in t.peers && PeerName(p) == info.name
    ensures Waiting(Planned(self, InternalProtocolClose(info, TRANSPORT_ERROR), t, clock).next, info.name, p.holdTime, p.lastReceived)
  {
    var u := Planned(self, InternalProtocolClose(info, TRANSPORT_ERROR), t, clock).next;
    var i := IndexOf(PeerName, t.peers, info.name);
    assert Find(PeerName, t.peers, info.name).Some?;
    UniqueMember(PeerName, t.peers, t.peers[i], p);
    assert u.peers[i] in u.peers && u.peers[i] == p.(status := Closed);
    forall r | r in u.internal && Via(r) == info.name ensures r.isStale {
      var j :| 0 <= j < |u.internal| && u.internal[j] == r;
    }
  }

  function AfterFailure(self: string, info: PeerInfo, t: RouteTable, clock: int): RouteTable {
    Planned(self, InternalProtocolClose(info, TRANSPORT_ERROR), t, clock).next
  }

  /** Until the deadline a failed peer's route is lost only to another peer's update for its key, to deletion of the
      peer or to a hard close. */
  lemma {:induction false} GraceKeepsRoutes(self: string, p: PeerRecord, info: PeerInfo, t: RouteTable, clock: int, acts: seq<Timed>, r: InternalRoute)
    requires WellFormed(self, t) && p in t.peers && PeerName(p) == info.name
    requires Silent(acts, info.name) && r in t.internal && Via(r) == info.name
    requires forall i :: 0 <= i < |acts| ==> !Takes(self, acts[i].action, r, p.lastReceived + p.holdTime)
    ensures Stale(r) in Replay(self, acts, AfterFailure(self, info, t, clock)).internal
  {
    var closed := AfterFailure(self, info, t, clock);
    PlanKeepsWellFormed(self, InternalProtocolClose(info, TRANSPORT_ERROR), t, clock);
    TransportCloseWaits(self, p, info, t, clock);
    assert Find(PeerName, t.peers, info.name).Some?;
    var j :| 0 <= j < |t.internal| && t.internal[j] == r;
    assert closed.internal[j] == Stale(r);
    var deadline := p.lastReceived + p.holdTime;
    assert forall i :: 0 <= i < |acts| ==> Takes(self, acts[i].action, Stale(r), deadline) == Takes(self, acts[i].action, r, deadline);
    StaleRouteSurvives(self, acts, closed, Stale(r), p.holdTime, p.lastReceived);
  }

  /** A tick past the deadline empties the waiting routes, and silence brings none back. */
  lemma DeadlineClears(self: string, acts: seq<Timed>, t: RouteTable, name: string, hold: int, last: int)
    requires WellFormed(self, t) && Waiting(t, name, hold, last) && hold > 0 && last > 0 && Silent(acts, name)
    requires |acts| > 0 && acts[0].action.Tick? && acts[0].action.now > last + hold
    ensures NoneVia(Replay(self, acts, t), name)
  {
    var now := acts[0].action.now;
    DeadlinePurges(now, t, name, hold, last);
    PlanKeepsWellFormed(self, acts[0].action, t, acts[0].clock);
    SilenceKeepsNone(self, acts[1..], AfterTick(now, t), name);
  }

  /** The first tick past the deadline leaves none of the failed peer's routes, and silence brings none back. */
  lemma {:induction false} GraceEnds(self: string, p: PeerRecord, info: PeerInfo, t: RouteTable, clock: int, acts: seq<Timed>, i: nat)
    requires WellFormed(self, t) && p in t.peers && PeerName(p) == info.name && p.holdTime > 0 && p.lastReceived > 0
    requires Silent(acts, info.name)
    requires i < |acts| && acts[i].action.Tick? && acts[i].action.now > p.lastReceived + p.holdTime
    ensures NoneVia(Replay(self, acts, AfterFailure(self, info, t, clock)), info.name)
  {
    var closed := AfterFailure(self, info, t, clock);
    PlanKeepsWellFormed(self, InternalProtocolClose(info, TRANSPORT_ERROR), t, clock);
    TransportCloseWaits(self, p, info, t, clock);
    SilenceThenDeadline(self, acts, closed, info.name, p.holdTime, p.lastReceived, i);
  }

  lemma SilenceThenDeadline(self: string, acts: seq<Timed>, t: RouteTable, name: string, hold: int, last: int, i: nat)
    requires WellFormed(self, t) && Waiting(t, name, hold, last) && hold > 0 && last > 0 && Silent(acts, name)
    requires i < |acts| && acts[i].action.Tick? && acts[i].action.now > last + hold
    ensures NoneVia(Replay(self, acts, t), name)
  {
    assert acts == acts[..i] + acts[i..];
    ReplayAppend(self, acts[..i], acts[i..], t);
    SilenceKeepsWaiting(self, acts[..i], t, name, hold, last);
    ReplayKeepsWellFormed(self, acts[..i], t);
    DeadlineClears(self, acts[i..], Replay(self, acts[..i], t), name, hold, last);
  }
}
