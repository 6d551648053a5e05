/** A peer's record after any run, read off the actions of the run. */
module PeerHistory {
  import opened KeyedLists
  import opened RouteTypes
  import opened Rib
  import opened RibTheorems
  import opened Runs
  import opened GracefulRestart
  import opened Sessions

  // -------------------------------------------------------------------------
  // Readings of a run
  // -------------------------------------------------------------------------

  predicate ComesUp(a: Action, name: string) {
    (a.InternalProtocolOpen? || a.InternalProtocolConnected?) && a.info.name == name
  }

  predicate GoesDown(a: Action, name: string) { a.InternalProtocolClose? && a.info.name == name }

  predicate Reconfigures(a: Action, name: string) { a.LocalPeerUpdate? && a.info.name == name }

  /** The hold time after the actions, starting from `base`. */
  function HoldOf(acts: seq<Timed>, name: string, base: int): int {
    if |acts| == 0 then base else HoldStep(acts[|acts| - 1].action, name, HoldOf(acts[..|acts| - 1], name, base))
  }

  /** `m` is the clock of the last action that satisfies `happens`, or `base` when none does. */
  ghost predicate LastClock(m: int, acts: seq<Timed>, happens: Action -> bool, base: int) {
    || (m == base && forall i :: 0 <= i < |acts| ==> !happens(acts[i].action))
    || (exists i :: LastThat(acts, happens, i) && m == acts[i].clock)
  }

  ghost predicate LastThat(acts: seq<Timed>, happens: Action -> bool, i: int) {
    0 <= i < |acts| && happens(acts[i].action) && forall j :: i < j < |acts| ==> !happens(acts[j].action)
  }

  function Hears(name: string): Action -> bool { (a: Action) => From(a, name) }

  function MakesConnection(name: string): Action -> bool { (a: Action) => ConnectOf(a, name) }

  /** A tick that finds the hold time run out since the peer was last heard, in a session that has been up. */
  ghost predicate RunsOut(acts: seq<Timed>, p: PeerRecord, i: int)
    requires 0 <= i < |acts|
  {
    && acts[i].action.Tick?
    && (p.status != Initializing || exists j :: 0 <= j < i && ComesUp(acts[j].action, PeerName(p)))
    && (exists heard :: HeardLate(acts, p, i, heard))
  }

  ghost predicate HeardLate(acts: seq<Timed>, p: PeerRecord, i: int, heard: int)
    requires 0 <= i < |acts| && acts[i].action.Tick?
  {
    var hold := HoldOf(acts[..i], PeerName(p), p.holdTime);
    LastClock(heard, acts[..i], Hears(PeerName(p)), p.lastReceived) && heard > 0 && hold > 0 && acts[i].action.now > heard + hold
  }

  /** Something that decides the status of the session. */
  ghost predicate Decides(acts: seq<Timed>, p: PeerRecord, i: int) {
    0 <= i < |acts| && (ComesUp(acts[i].action, PeerName(p)) || GoesDown(acts[i].action, PeerName(p)) || RunsOut(acts, p, i))
  }

  ghost predicate DecidesLast(acts: seq<Timed>, p: PeerRecord, i: int) {
    Decides(acts, p, i) && forall j :: i < j < |acts| ==> !Decides(acts, p, j)
  }

  /** Connected when the last thing to decide is an open or connect, closed when it is a close or a tick past the hold time;
      otherwise as at the start. */
  ghost predicate StatusIs(status: ConnectionStatus, acts: seq<Timed>, p: PeerRecord) {
    || (status == p.status && forall i :: !Decides(acts, p, i))
    || (exists i :: DecidesLast(acts, p, i) && status == if ComesUp(acts[i].action, PeerName(p)) then Connected else Closed)
  }

  /** `v` is what the last reconfiguration that gives the field gives, or `base`. */
  ghost predicate LastGiven<T>(v: Option<T>, acts: seq<Timed>, name: string, field: PeerInfo -> Option<T>, base: Option<T>) {
    || (v == base && forall i :: 0 <= i < |acts| ==> !Gives(acts, name, field, i))
    || (exists i :: 0 <= i < |acts| && Gives(acts, name, field, i) && v == field(acts[i].action.info)
                    && forall j :: i < j < |acts| ==> !Gives(acts, name, field, j))
  }

  predicate Gives<T>(acts: seq<Timed>, name: string, field: PeerInfo -> Option<T>, i: int)
    requires 0 <= i < |acts|
  {
    Reconfigures(acts[i].action, name) && field(acts[i].action.info).Some?
  }

  function Domains(info: PeerInfo): Option<seq<string>> { Some(info.domains) }
  function EndpointOf(info: PeerInfo): Option<string> { info.endpoint }
  function LabelsOf(info: PeerInfo): Option<map<string, string>> { info.labels }
  function TokenOf(info: PeerInfo): Option<string> { info.peerToken }
  function AddressOf(info: PeerInfo): Option<string> { info.envoyAddress }

  /** The configuration is what was given last, field by field. */
  ghost predicate InfoIs(info: PeerInfo, acts: seq<Timed>, p: PeerRecord) {
    var name := PeerName(p);
    && info.name == name
    && LastGiven(Some(info.domains), acts, name, Domains, Some(p.info.domains))
    && LastGiven(info.endpoint, acts, name, EndpointOf, p.info.endpoint)
    && LastGiven(info.labels, acts, name, LabelsOf, p.info.labels)
    && LastGiven(info.peerToken, acts, name, TokenOf, p.info.peerToken)
    && LastGiven(info.envoyAddress, acts, name, AddressOf, p.info.envoyAddress)
  }

  /** The whole record `q` after the actions, from `p` before them. */
  ghost predicate RecordIs(q: PeerRecord, acts: seq<Timed>, p: PeerRecord) {
    var name := PeerName(p);
    && InfoIs(q.info, acts, p)
    && StatusIs(q.status, acts, p)
    && q.holdTime == HoldOf(acts, name, p.holdTime)
    && LastClock(q.lastReceived, acts, Hears(name), p.lastReceived)
    && LastClock(q.lastConnected, acts, MakesConnection(name), p.lastConnected)
    && q.lastSent == if Connects(acts, name) then 0 else p.lastSent
  }

  // -------------------------------------------------------------------------
  // One action
  // -------------------------------------------------------------------------

  function Merged(info: PeerInfo, was: PeerInfo): PeerInfo {
    PeerInfo(was.name, info.domains,
             if info.endpoint.Some? then info.endpoint else was.endpoint,
             if info.labels.Some? then info.labels else was.labels,
             if info.peerToken.Some? then info.peerToken else was.peerToken,
             if info.envoyAddress.Some? then info.envoyAddress else was.envoyAddress)
  }

  /** What one action makes of a record. */
  predicate Follows(q: PeerRecord, p: PeerRecord, x: Timed) {
    var name := PeerName(p);
    && q.info == (if Reconfigures(x.action, name) then Merged(x.action.info, p.info) else p.info)
    && q.status == (if ComesUp(x.action, name) then Connected else if GoesDown(x.action, name) then Closed
                    else if x.action.Tick? && Expires(p, x.action.now) then Closed else p.status)
    && q.holdTime == HoldStep(x.action, name, p.holdTime)
    && q.lastReceived == (if From(x.action, name) then x.clock else p.lastReceived)
    && q.lastConnected == (if ConnectOf(x.action, name) then x.clock else p.lastConnected)
    && q.lastSent == if ConnectOf(x.action, name) then 0 else p.lastSent
  }

  lemma NamedFollows(self: string, x: Timed, t: RouteTable, i: nat)
    requires Unique(PeerName, t.peers) && i < |t.peers|
    requires x.action.LocalPeerUpdate? || x.action.InternalProtocolOpen? || x.action.InternalProtocolConnected?
             || x.action.InternalProtocolClose? || x.action.InternalProtocolKeepalive?
    ensures var peers := Planned(self, x.action, t, x.clock).next.peers; i < |peers| && Follows(peers[i], t.peers[i], x)
  {
    SamePlace(t.peers, t.peers[i], i, x.action.info.name);
  }

  lemma UpdateFollows(self: string, x: Timed, t: RouteTable, i: nat)
    requires Unique(PeerName, t.peers) && i < |t.peers| && x.action.InternalProtocolUpdate?
    ensures var peers := Planned(self, x.action, t, x.clock).next.peers; i < |peers| && Follows(peers[i], t.peers[i], x)
  {
    SamePlace(t.peers, t.peers[i], i, x.action.info.name);
  }

  lemma TickFollows(self: string, x: Timed, t: RouteTable, i: nat)
    requires i < |t.peers| && x.action.Tick?
    ensures var peers := Planned(self, x.action, t, x.clock).next.peers; i < |peers| && Follows(peers[i], t.peers[i], x)
  {
    TickTable(x.action.now, t);
  }

  lemma OtherFollows(self: string, x: Timed, t: RouteTable, i: nat)
    requires i < |t.peers|
    requires x.action.LocalPeerCreate? || x.action.LocalRouteCreate? || x.action.LocalRouteDelete? || x.action.LocalRouteHealthUpdate?
    ensures var peers := Planned(self, x.action, t, x.clock).next.peers; i < |peers| && Follows(peers[i], t.peers[i], x)
  {
    var peers := Planned(self, x.action, t, x.clock).next.peers;
    assert i < |peers| && peers[i] == t.peers[i];
  }

  lemma RecordFollows(self: string, x: Timed, t: RouteTable, p: PeerRecord)
    requires Unique(PeerName, t.peers) && p in t.peers && x.action != LocalPeerDelete(PeerName(p))
    ensures exists q :: q in Planned(self, x.action, t, x.clock).next.peers && Follows(q, p, x)
  {
    var i :| 0 <= i < |t.peers| && t.peers[i] == p;
    match x.action
    case LocalPeerDelete(name) => assert p in Planned(self, x.action, t, x.clock).next.peers;
    case InternalProtocolUpdate(_, _) => UpdateFollows(self, x, t, i);
    case LocalPeerCreate(_) => OtherFollows(self, x, t, i);
    case LocalRouteCreate(_) => OtherFollows(self, x, t, i);
    case LocalRouteDelete(_) => OtherFollows(self, x, t, i);
    case LocalRouteHealthUpdate(_, _, _, _) => OtherFollows(self, x, t, i);
    case Tick(_) => TickFollows(self, x, t, i);
    case _ => NamedFollows(self, x, t, i);
  }

  // -------------------------------------------------------------------------
  // One more action
  // -------------------------------------------------------------------------

  lemma Earlier(acts: seq<Timed>, x: Timed, i: nat)
    requires i < |acts|
    ensures (acts + [x])[i] == acts[i] && (acts + [x])[..i] == acts[..i] && (acts + [x])[|acts|] == x && (acts + [x])[..|acts|] == acts
  {
  }

  lemma LastClockSnoc(m: int, acts: seq<Timed>, x: Timed, happens: Action -> bool, base: int)
    requires LastClock(m, acts, happens, base)
    ensures LastClock(if happens(x.action) then x.clock else m, acts + [x], happens, base)
  {
    var more := acts + [x];
    assert more[|acts|] == x;
    if happens(x.action) {
      assert LastThat(more, happens, |acts|);
    } else if i :| LastThat(acts, happens, i) && m == acts[i].clock {
      assert LastThat(more, happens, i);
    }
  }

  lemma LastClockIsOne(m: int, n: int, acts: seq<Timed>, happens: Action -> bool, base: int)
    requires LastClock(m, acts, happens, base) && LastClock(n, acts, happens, base)
    ensures m == n
  {
  }

  lemma GivenSnoc<T>(v: Option<T>, acts: seq<Timed>, x: Timed, name: string, field: PeerInfo -> Option<T>, base: Option<T>)
    requires LastGiven(v, acts, name, field, base)
    ensures LastGiven(if Reconfigures(x.action, name) && field(x.action.info).Some? then field(x.action.info) else v, acts + [x], name, field, base)
  {
    var more := acts + [x];
    assert more[|acts|] == x;
    forall i | 0 <= i < |acts| ensures Gives(more, name, field, i) == Gives(acts, name, field, i) {
      assert more[i] == acts[i];
    }
    if Reconfigures(x.action, name) && field(x.action.info).Some? {
      assert Gives(more, name, field, |acts|);
    } else if i :| 0 <= i < |acts| && Gives(acts, name, field, i) && v == field(acts[i].action.info)
                   && forall j :: i < j < |acts| ==> !Gives(acts, name, field, j) {
      assert Gives(more, name, field, i) && forall j :: i < j < |more| ==> !Gives(more, name, field, j);
    } else {
      assert forall i :: 0 <= i < |more| ==> !Gives(more, name, field, i);
    }
  }

  lemma InfoSnoc(info: PeerInfo, acts: seq<Timed>, x: Timed, p: PeerRecord)
    requires InfoIs(info, acts, p)
    ensures InfoIs(if Reconfigures(x.action, PeerName(p)) then Merged(x.action.info, info) else info, acts + [x], p)
  {
    var name := PeerName(p);
    GivenSnoc(Some(info.domains), acts, x, name, Domains, Some(p.info.domains));
    GivenSnoc(info.endpoint, acts, x, name, EndpointOf, p.info.endpoint);
    GivenSnoc(info.labels, acts, x, name, LabelsOf, p.info.labels);
    GivenSnoc(info.peerToken, acts, x, name, TokenOf, p.info.peerToken);
    GivenSnoc(info.envoyAddress, acts, x, name, AddressOf, p.info.envoyAddress);
  }

  lemma DecidesEarlier(acts: seq<Timed>, x: Timed, p: PeerRecord, i: int)
    requires i < |acts|
    ensures Decides(acts + [x], p, i) <==> Decides(acts, p, i)
  {
    if i >= 0 {
      Earlier(acts, x, i);
      assert forall j :: 0 <= j < i ==> (acts + [x])[j] == acts[j];
      if acts[i].action.Tick? {
        assert forall heard :: HeardLate(acts + [x], p, i, heard) <==> HeardLate(acts, p, i, heard);
      }
    }
  }

  /** The tick just taken runs out exactly when the record has, unless the session was never up. */
  lemma RunsOutNow(q: PeerRecord, acts: seq<Timed>, x: Timed, p: PeerRecord)
    requires x.action.Tick? && RecordIs(q, acts, p)
    ensures RunsOut(acts + [x], p, |acts|) <==>
              HoldElapsed(q, x.action.now) && (p.status != Initializing || exists j :: 0 <= j < |acts| && ComesUp(acts[j].action, PeerName(p)))
  {
    var more := acts + [x];
    assert more[..|acts|] == acts && more[|acts|] == x;
    assert forall j :: 0 <= j < |acts| ==> more[j] == acts[j];
    if HoldElapsed(q, x.action.now) {
      assert HeardLate(more, p, |acts|, q.lastReceived);
    }
    forall heard | HeardLate(more, p, |acts|, heard) ensures heard == q.lastReceived {
      LastClockIsOne(heard, q.lastReceived, acts, Hears(PeerName(p)), p.lastReceived);
    }
  }

  lemma StatusStays(status: ConnectionStatus, acts: seq<Timed>, x: Timed, p: PeerRecord)
    requires StatusIs(status, acts, p) && !Decides(acts + [x], p, |acts|)
    ensures StatusIs(status, acts + [x], p)
  {
    var more := acts + [x];
    forall i | i < |acts| ensures Decides(more, p, i) <==> Decides(acts, p, i) {
      DecidesEarlier(acts, x, p, i);
    }
    if i :| DecidesLast(acts, p, i) && status == if ComesUp(acts[i].action, PeerName(p)) then Connected else Closed {
      assert DecidesLast(more, p, i) && more[i] == acts[i];
    } else {
      assert forall i :: !Decides(more, p, i);
    }
  }

  /** A status is Connected only if something brought the session up, and Initializing only if nothing did. */
  lemma UpOrNever(status: ConnectionStatus, acts: seq<Timed>, p: PeerRecord)
    requires StatusIs(status, acts, p)
    ensures status == Connected ==> p.status != Initializing || exists j :: 0 <= j < |acts| && ComesUp(acts[j].action, PeerName(p))
    ensures status == Initializing ==> p.status == Initializing && forall j :: 0 <= j < |acts| ==> !ComesUp(acts[j].action, PeerName(p))
  {
    forall j | 0 <= j < |acts| && ComesUp(acts[j].action, PeerName(p)) ensures Decides(acts, p, j) {}
  }

  lemma StatusSnoc(q: PeerRecord, acts: seq<Timed>, x: Timed, p: PeerRecord, r: PeerRecord)
    requires RecordIs(q, acts, p) && Follows(r, q, x)
    ensures StatusIs(r.status, acts + [x], p)
  {
    var more, n := acts + [x], |acts|;
    assert more[n] == x;
    UpOrNever(q.status, acts, p);
    if x.action.Tick? {
      RunsOutNow(q, acts, x, p);
    }
    if Decides(more, p, n) {
      assert DecidesLast(more, p, n);
    } else {
      StatusStays(q.status, acts, x, p);
    }
  }

  lemma RecordSnoc(q: PeerRecord, acts: seq<Timed>, x: Timed, p: PeerRecord, r: PeerRecord)
    requires RecordIs(q, acts, p) && Follows(r, q, x)
    ensures RecordIs(r, acts + [x], p)
  {
    var more, name := acts + [x], PeerName(p);
    assert more[..|acts|] == acts && more[|acts|] == x;
    InfoSnoc(q.info, acts, x, p);
    StatusSnoc(q, acts, x, p, r);
    LastClockSnoc(q.lastReceived, acts, x, Hears(name), p.lastReceived);
    LastClockSnoc(q.lastConnected, acts, x, MakesConnection(name), p.lastConnected);
    ConnectsSnoc(acts, x, name);
  }

  lemma ConnectsSnoc(acts: seq<Timed>, x: Timed, name: string)
    ensures Connects(acts + [x], name) <==> Connects(acts, name) || ConnectOf(x.action, name)
  {
    var more := acts + [x];
    assert more[|acts|] == x;
    if i :| 0 <= i < |acts| && ConnectOf(acts[i].action, name) {
      assert more[i] == acts[i];
    }
  }

  // -------------------------------------------------------------------------
  // Any run
  // -------------------------------------------------------------------------

  /** After any run that does not delete the peer: it is Connected exactly when the last of its opens, connects, closes and
      ticks past the hold time is an open or connect, Closed exactly when it is one of the others, and otherwise as it
      began; its hold time is what was negotiated, its times those of the last message and the last connect, its
      configuration what was given last. */
  lemma {:induction false} RecordAfterRun(self: string, acts: seq<Timed>, t: RouteTable, p: PeerRecord)
    requires WellFormed(self, t) && p in t.peers
    requires forall i :: 0 <= i < |acts| ==> acts[i].action != LocalPeerDelete(PeerName(p))
    ensures exists q :: q in Replay(self, acts, t).peers && RecordIs(q, acts, p)
  {
    if |acts| == 0 {
      assert RecordIs(p, acts, p);
    } else {
      var before, x := acts[..|acts| - 1], acts[|acts| - 1];
      assert acts == before + [x];
      RecordAfterRun(self, before, t, p);
      var q :| q in Replay(self, before, t).peers && RecordIs(q, before, p);
      ReplayKeepsWellFormed(self, before, t);
      ReplayAppend(self, before, [x], t);
      assert [x][1..] == [];
      RecordFollows(self, x, Replay(self, before, t), q);
      var r :| r in Planned(self, x.action, Replay(self, before, t), x.clock).next.peers && Follows(r, q, x);
      RecordSnoc(q, before, x, p, r);
    }
  }

  lemma {:induction false} SinceSnoc(acts: seq<Timed>, x: Timed, name: string)
    ensures SinceConnect(acts + [x], name) == if ConnectOf(x.action, name) then [] else SinceConnect(acts, name) + [x]
  {
    var more := acts + [x];
    ConnectsSnoc(acts, x, name);
    if |acts| == 0 {
      assert more == [x] && more[1..] == [];
    } else {
      assert more[1..] == acts[1..] + [x];
      SinceSnoc(acts[1..], x, name);
    }
  }

  lemma OfferedSnoc(acts: seq<Timed>, x: Timed, name: string)
    ensures Offered(acts + [x], name) == Offered(acts, name) + if IsOffer(x.action, name) then {x.action.offeredHoldTime.value} else {}
  {
    var more := acts + [x];
    assert more[|acts|] == x && forall i :: 0 <= i < |acts| ==> more[i] == acts[i];
  }

  /** The hold time read here is the smallest offered since the last connect. */
  lemma {:induction false} HoldOfIsSmallest(acts: seq<Timed>, name: string, base: int)
    ensures SmallestOf(HoldOf(acts, name, base), if Connects(acts, name) then DEFAULT_HOLD_TIME else base, Offered(SinceConnect(acts, name), name))
  {
    if |acts| > 0 {
      var before, x := acts[..|acts| - 1], acts[|acts| - 1];
      assert acts == before + [x];
      HoldOfIsSmallest(before, name, base);
      ConnectsSnoc(before, x, name);
      SinceSnoc(before, x, name);
      OfferedSnoc(SinceConnect(before, name), x, name);
    }
  }

  /** A new peer begins Initializing with the default hold time, never heard and never connected. */
  lemma NewPeerBegins(self: string, info: PeerInfo, t: RouteTable, clock: int)
    requires forall p :: p in t.peers ==> PeerName(p) != info.name
    ensures var next := Planned(self, LocalPeerCreate(info), t, clock).next;
            && (forall p :: p in next.peers <==> p in t.peers || p == PeerRecord(info, Initializing, 0, 90_000, 0, 0))
            && next.local == t.local && next.internal == t.internal
  {
  }

  predicate Configures(a: Action, name: string) { a.LocalPeerCreate? && a.info.name == name }

  ghost predicate Known(t: RouteTable, name: string) { exists p :: p in t.peers && PeerName(p) == name }

  lemma KnownAfter(self: string, a: Action, t: RouteTable, clock: int, name: string)
    ensures Known(Planned(self, a, t, clock).next, name) <==> Configures(a, name) || (Known(t, name) && a != LocalPeerDelete(name))
  {
    var ps, qs := t.peers, Planned(self, a, t, clock).next.peers;
    match a
    case LocalPeerDelete(gone) =>
      if !Known(t, gone) {
        WithoutNone(PeerName, ps, {gone});
      }
    case LocalPeerCreate(info) =>
      if forall p :: p in ps ==> PeerName(p) != info.name {
        NewPeerBegins(self, info, t, clock);
        assert PeerRecord(info, Initializing, 0, 90_000, 0, 0) in qs;
      }
    case _ => SameNames(self, a, t, clock, name);
  }

  lemma SameCount(self: string, a: Action, t: RouteTable, clock: int)
    requires !a.LocalPeerDelete? && !a.LocalPeerCreate?
    ensures |Planned(self, a, t, clock).next.peers| == |t.peers|
  {
    match a
    case InternalProtocolUpdate(info, us) => assert Planned(self, a, t, clock) == PlannedUpdate(self, info, us, t, clock);
    case Tick(now) => TickTable(now, t);
    case _ =>
  }

  lemma SameNames(self: string, a: Action, t: RouteTable, clock: int, name: string)
    requires !a.LocalPeerDelete? && !a.LocalPeerCreate?
    ensures Known(Planned(self, a, t, clock).next, name) <==> Known(t, name)
  {
    var ps, qs := t.peers, Planned(self, a, t, clock).next.peers;
    SameCount(self, a, t, clock);
    forall i | 0 <= i < |ps| ensures PeerName(qs[i]) == PeerName(ps[i]) {
      PlaceKept(self, a, t, clock, i);
    }
    if p :| p in ps && PeerName(p) == name {
      var i :| 0 <= i < |ps| && ps[i] == p;
      assert qs[i] in qs;
    }
    if q :| q in qs && PeerName(q) == name {
      var i :| 0 <= i < |qs| && qs[i] == q;
      assert ps[i] in ps;
    }
  }

  /** The last of the actions to create or delete the peer created it; or none did, and it was there at the start. */
  ghost predicate ConfiguredLast(acts: seq<Timed>, name: string, there: bool) {
    || (there && forall i :: 0 <= i < |acts| ==> acts[i].action != LocalPeerDelete(name))
    || (exists i :: 0 <= i < |acts| && Configures(acts[i].action, name) && forall j :: i < j < |acts| ==> acts[j].action != LocalPeerDelete(name))
  }

  lemma ConfiguredSnoc(acts: seq<Timed>, x: Timed, name: string, there: bool)
    ensures ConfiguredLast(acts + [x], name, there)
            <==> Configures(x.action, name) || (ConfiguredLast(acts, name, there) && x.action != LocalPeerDelete(name))
  {
    var more := acts + [x];
    assert more[|acts|] == x && forall i :: 0 <= i < |acts| ==> more[i] == acts[i];
    if Configures(x.action, name) {
      assert Configures(more[|acts|].action, name);
    }
    if i :| 0 <= i < |acts| && Configures(acts[i].action, name) && forall j :: i < j < |acts| ==> acts[j].action != LocalPeerDelete(name) {
      assert Configures(more[i].action, name);
    }
  }

  /** After any run a peer is configured exactly when the last action to create or delete it created it. */
  lemma {:induction false} KnownAfterRun(self: string, acts: seq<Timed>, t: RouteTable, name: string)
    ensures Known(Replay(self, acts, t), name) <==> ConfiguredLast(acts, name, Known(t, name))
    decreases |acts|
  {
    if |acts| > 0 {
      var before, x := acts[..|acts| - 1], acts[|acts| - 1];
      assert acts == before + [x] && [x][1..] == [];
      ReplayAppend(self, before, [x], t);
      KnownAfterRun(self, before, t, name);
      KnownAfter(self, x.action, Replay(self, before, t), x.clock, name);
      ConfiguredSnoc(before, x, name, Known(t, name));
    }
  }
}
