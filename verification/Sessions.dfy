/** Peer sessions over runs: the negotiated hold time (section 4.2 of RFC 4271), and when a session stays up (section 6.5). */
module Sessions {
  import opened KeyedLists
  import opened RouteTypes
  import opened Rib
  import opened RibTheorems
  import opened Runs
  import opened GracefulRestart

  predicate ConnectOf(a: Action, name: string) { a.InternalProtocolConnected? && a.info.name == name }

  predicate Connects(acts: seq<Timed>, name: string) {
    exists i :: 0 <= i < |acts| && ConnectOf(acts[i].action, name)
  }

  /** The actions after the last connect of the peer; all of them when there is none. */
  function SinceConnect(acts: seq<Timed>, name: string): seq<Timed> {
    if Connects(acts, name) then SinceConnect(acts[1..], name) else acts
  }

  /** The hold times offered in opens of the peer's session. */
  function Offered(acts: seq<Timed>, name: string): set<int> {
    set i | 0 <= i < |acts| && IsOffer(acts[i].action, name) :: acts[i].action.offeredHoldTime.value
  }

  predicate IsOffer(a: Action, name: string) {
    a.InternalProtocolOpen? && a.info.name == name && a.offeredHoldTime.Some?
  }

  /** What one action does to the peer's hold time. */
  function HoldStep(a: Action, name: string, hold: int): int {
    if ConnectOf(a, name) then DEFAULT_HOLD_TIME
    else if IsOffer(a, name) then Min(hold, a.offeredHoldTime.value)
    else hold
  }

  /** The peer at place `i` stays there unless a peer is deleted. */
  lemma PlaceKept(self: string, a: Action, t: RouteTable, clock: int, i: nat)
    requires i < |t.peers| && !a.LocalPeerDelete?
    ensures var peers := Planned(self, a, t, clock).next.peers; i < |peers| && peers[i] in peers && PeerName(peers[i]) == PeerName(t.peers[i])
  {
  }

  /** Opens and connects set the hold time of their own peer. */
  lemma SessionHold(self: string, a: Action, t: RouteTable, clock: int, i: nat)
    requires Unique(PeerName, t.peers) && i < |t.peers| && (a.InternalProtocolOpen? || a.InternalProtocolConnected?)
    ensures var q := Planned(self, a, t, clock).next.peers[i];
            q.holdTime == HoldStep(a, PeerName(t.peers[i]), t.peers[i].holdTime)
  {
    SamePlace(t.peers, t.peers[i], i, a.info.name);
  }

  /** No other action touches a hold time. */
  lemma OtherHold(self: string, a: Action, t: RouteTable, clock: int, i: nat)
    requires i < |t.peers| && !a.LocalPeerDelete? && !a.InternalProtocolOpen? && !a.InternalProtocolConnected?
    ensures i < |Planned(self, a, t, clock).next.peers| && Planned(self, a, t, clock).next.peers[i].holdTime == t.peers[i].holdTime
  {
  }

  lemma HoldAfter(self: string, a: Action, t: RouteTable, clock: int, p: PeerRecord)
    requires WellFormed(self, t) && p in t.peers && a != LocalPeerDelete(PeerName(p))
    ensures exists q :: q in Planned(self, a, t, clock).next.peers && PeerName(q) == PeerName(p)
              && q.holdTime == HoldStep(a, PeerName(p), p.holdTime)
  {
    var i :| 0 <= i < |t.peers| && t.peers[i] == p;
    if a.LocalPeerDelete? {
      assert p in Planned(self, a, t, clock).next.peers;
    } else {
      PlaceKept(self, a, t, clock, i);
      if a.InternalProtocolOpen? || a.InternalProtocolConnected? {
        SessionHold(self, a, t, clock, i);
      } else {
        OtherHold(self, a, t, clock, i);
      }
    }
  }

  /** With distinct names, a peer's record is the one found under its name. */
  lemma SamePlace(ps: seq<PeerRecord>, p: PeerRecord, i: nat, name: string)
    requires Unique(PeerName, ps) && i < |ps| && ps[i] == p
    ensures PeerName(p) == name <==> IndexOf(PeerName, ps, name) == i
  {
  }

  /** `m` is the smallest of `base` and the offers. */
  ghost predicate SmallestOf(m: int, base: int, offers: set<int>) {
    (m == base || m in offers) && m <= base && forall h :: h in offers ==> m <= h
  }

  lemma SmallestStep(x: Timed, rest: seq<Timed>, name: string, m: int, hold: int)
    requires !ConnectOf(x.action, name) && SmallestOf(m, HoldStep(x.action, name, hold), Offered(rest, name))
    ensures SmallestOf(m, hold, Offered([x] + rest, name))
  {
    var acts := [x] + rest;
    assert forall i :: 0 <= i < |rest| ==> acts[i + 1] == rest[i];
    assert acts[0] == x;
    forall h | h in Offered(rest, name) ensures h in Offered(acts, name) {
      var i :| 0 <= i < |rest| && IsOffer(rest[i].action, name) && rest[i].action.offeredHoldTime.value == h;
      assert IsOffer(acts[i + 1].action, name);
    }
    forall h | h in Offered(acts, name) ensures m <= h {
      var i :| 0 <= i < |acts| && IsOffer(acts[i].action, name) && acts[i].action.offeredHoldTime.value == h;
      if i > 0 {
        assert rest[i - 1] == acts[i] && IsOffer(rest[i - 1].action, name);
        assert h in Offered(rest, name);
      }
    }
  }

  /** After any run that does not delete the peer, its hold time is the smallest offered since the session last
      connected, starting from the default; or, without a connect, from what it was. */
  lemma {:induction false} HoldTimeIsSmallestOffer(self: string, acts: seq<Timed>, t: RouteTable, p: PeerRecord)
    requires WellFormed(self, t) && p in t.peers
    requires forall i :: 0 <= i < |acts| ==> acts[i].action != LocalPeerDelete(PeerName(p))
    ensures exists q :: q in Replay(self, acts, t).peers && PeerName(q) == PeerName(p)
              && SmallestOf(q.holdTime, if Connects(acts, PeerName(p)) then DEFAULT_HOLD_TIME else p.holdTime,
                            Offered(SinceConnect(acts, PeerName(p)), PeerName(p)))
    decreases acts
  {
    if |acts| > 0 {
      var x, rest, name := acts[0], acts[1..], PeerName(p);
      HoldAfter(self, x.action, t, x.clock, p);
      PlanKeepsWellFormed(self, x.action, t, x.clock);
      var next := Planned(self, x.action, t, x.clock).next;
      var p' :| p' in next.peers && PeerName(p') == name && p'.holdTime == HoldStep(x.action, name, p.holdTime);
      HoldTimeIsSmallestOffer(self, rest, next, p');
      assert acts == [x] + rest;
      ConnectsRest(x, rest, name);
      if !Connects(acts, name) {
        var q :| q in Replay(self, rest, next).peers && PeerName(q) == name && SmallestOf(q.holdTime, p'.holdTime, Offered(rest, name));
        SmallestStep(x, rest, name, q.holdTime, p.holdTime);
      }
    }
  }

  lemma ConnectsRest(x: Timed, rest: seq<Timed>, name: string)
    ensures Connects([x] + rest, name) <==> ConnectOf(x.action, name) || Connects(rest, name)
    ensures Connects([x] + rest, name) ==> SinceConnect([x] + rest, name) == SinceConnect(rest, name)
  {
    var acts := [x] + rest;
    assert acts[0] == x && acts[1..] == rest;
    if i :| 0 <= i < |rest| && ConnectOf(rest[i].action, name) {
      assert ConnectOf(acts[i + 1].action, name);
    }
    if i :| 0 <= i < |acts| && ConnectOf(acts[i].action, name) {
      assert i == 0 || rest[i - 1] == acts[i];
    }
  }

  // -------------------------------------------------------------------------
  // Hold timers
  // -------------------------------------------------------------------------

  /** When the peer was last heard, starting from `since`. */
  function HeardAt(acts: seq<Timed>, name: string, since: int): int
    decreases acts
  {
    if |acts| == 0 then since
    else HeardAt(acts[1..], name, if From(acts[0].action, name) then acts[0].clock else since)
  }

  /** The action neither opens, connects, closes nor deletes the peer's session. */
  predicate LeavesSession(a: Action, name: string) {
    match a
    case InternalProtocolOpen(info, _) => info.name != name
    case InternalProtocolConnected(info) => info.name != name
    case InternalProtocolClose(info, _) => info.name != name
    case LocalPeerDelete(n) => n != name
    case _ => true
  }

  lemma SessionStep(self: string, a: Action, t: RouteTable, clock: int, p: PeerRecord)
    requires WellFormed(self, t) && p in t.peers && LeavesSession(a, PeerName(p))
    ensures exists q :: q in Planned(self, a, t, clock).next.peers && PeerName(q) == PeerName(p) && q.holdTime == p.holdTime
              && q.lastReceived == (if From(a, PeerName(p)) then clock else p.lastReceived)
              && q.status == (if a.Tick? && Expires(p, a.now) then Closed else p.status)
  {
    var i :| 0 <= i < |t.peers| && t.peers[i] == p;
    if a.LocalPeerDelete? {
      assert p in Planned(self, a, t, clock).next.peers;
    } else {
      PlaceKept(self, a, t, clock, i);
      if a.Tick? {
        TickTable(a.now, t);
      } else if !a.LocalPeerCreate? && !a.LocalRouteCreate? && !a.LocalRouteDelete? && !a.LocalRouteHealthUpdate? {
        SamePlace(t.peers, p, i, a.info.name);
      }
    }
  }

  /** Every tick comes within the hold time of the last message from the peer. */
  predicate HeardInTime(acts: seq<Timed>, name: string, since: int, hold: int)
    decreases acts
  {
    |acts| > 0 ==>
      && (acts[0].action.Tick? ==> acts[0].action.now - since <= hold)
      && HeardInTime(acts[1..], name, if From(acts[0].action, name) then acts[0].clock else since, hold)
  }

  /** A peer heard within every hold time stays connected, with the clock of its last message on record; so the
      updates and keepalives that refresh it are all it takes. */
  lemma {:induction false} SessionStaysUp(self: string, acts: seq<Timed>, t: RouteTable, p: PeerRecord)
    requires WellFormed(self, t) && p in t.peers && p.status == Connected
    requires forall i :: 0 <= i < |acts| ==> LeavesSession(acts[i].action, PeerName(p))
    requires HeardInTime(acts, PeerName(p), p.lastReceived, p.holdTime)
    ensures exists q :: q in Replay(self, acts, t).peers && PeerName(q) == PeerName(p) && q.status == Connected && q.holdTime == p.holdTime
              && q.lastReceived == HeardAt(acts, PeerName(p), p.lastReceived)
    decreases acts
  {
    if |acts| > 0 {
      var x := acts[0];
      SessionStep(self, x.action, t, x.clock, p);
      PlanKeepsWellFormed(self, x.action, t, x.clock);
      var next := Planned(self, x.action, t, x.clock).next;
      var q :| q in next.peers && PeerName(q) == PeerName(p) && q.holdTime == p.holdTime && q.status == Connected
        && q.lastReceived == if From(x.action, PeerName(p)) then x.clock else p.lastReceived;
      SessionStaysUp(self, acts[1..], next, q);
    }
  }

  /** A peer not heard within its hold time is closed by the tick that notices, and its routes are gone. */
  lemma SilentSessionEnds(self: string, t: RouteTable, p: PeerRecord, now: int, clock: int)
    requires WellFormed(self, t) && p in t.peers && Expires(p, now)
    ensures var next := Planned(self, Tick(now), t, clock).next;
            && (exists q :: q in next.peers && PeerName(q) == PeerName(p) && q.status == Closed)
            && NoneVia(next, PeerName(p))
  {
    SessionStep(self, Tick(now), t, clock, p);
    TickTable(now, t);
    var i :| 0 <= i < |t.peers| && t.peers[i] == p;
    PurgedIff(now, t, PeerName(p));
  }
}
