/** Recovery after a restart: every replayed entry is read later than any tick in the log was dated. */
module RestartClock {
  import opened KeyedLists
  import opened RouteTypes
  import opened Rib
  import opened RibTheorems
  import opened Runs
  import GracefulRestart
  import Sessions
  import opened PortAllocator
  import opened BusSpec
  import opened Recovery
  import opened RecoveryLimits

  /** The peer an action was caused by, if any. */
  function Speakers(a: Action): (names: set<string>)
    ensures forall name :: name in names <==> GracefulRestart.From(a, name)
  {
    match a
    case InternalProtocolOpen(info, _) => {info.name}
    case InternalProtocolConnected(info) => {info.name}
    case InternalProtocolUpdate(info, _) => {info.name}
    case InternalProtocolKeepalive(info) => {info.name}
    case _ => {}
  }

  /** No tick of the live run purges a peer that has spoken since its start. */
  ghost predicate PurgesOnlySilent(self: string, acts: seq<Timed>, t: RouteTable, spoken: set<string>)
    decreases acts
  {
    |acts| > 0 ==>
      && (acts[0].action.Tick? ==> Purged(acts[0].action.now, t) !! spoken)
      && PurgesOnlySilent(self, acts[1..], Planned(self, acts[0].action, t, acts[0].clock).next, spoken + Speakers(acts[0].action))
  }

  /** In `qs` a peer that has spoken was heard at `late` or after, unless it was created anew since; the others were heard
      at the same time in both. */
  ghost predicate HeardLate(ps: seq<PeerRecord>, qs: seq<PeerRecord>, spoken: set<string>, late: int) {
    && |ps| == |qs|
    && forall i :: 0 <= i < |ps| ==> OneHeardLate(ps[i], qs[i], spoken, late)
  }

  predicate OneHeardLate(p: PeerRecord, q: PeerRecord, spoken: set<string>, late: int) {
    if PeerName(p) in spoken then q.lastReceived >= late || p.lastReceived == q.lastReceived == 0
    else p.lastReceived == q.lastReceived
  }

  lemma HeardLateTail(ps: seq<PeerRecord>, qs: seq<PeerRecord>, spoken: set<string>, late: int)
    requires SamePeers(ps, qs) && HeardLate(ps, qs, spoken, late) && |ps| > 0
    ensures SamePeers(ps[1..], qs[1..]) && HeardLate(ps[1..], qs[1..], spoken, late)
    ensures PeerName(ps[0]) == PeerName(qs[0]) && OneHeardLate(ps[0], qs[0], spoken, late)
  {
    assert PeerName(Timeless(ps[0])) == PeerName(Timeless(qs[0]));
    assert forall i :: 0 <= i < |ps[1..]| ==> ps[1..][i] == ps[i + 1] && qs[1..][i] == qs[i + 1];
  }

  lemma HeardLateCons(p: PeerRecord, ps: seq<PeerRecord>, q: PeerRecord, qs: seq<PeerRecord>, spoken: set<string>, late: int)
    requires HeardLate(ps, qs, spoken, late) && OneHeardLate(p, q, spoken, late)
    ensures HeardLate([p] + ps, [q] + qs, spoken, late)
  {
  }

  lemma {:induction false} HeardLateRest(ps: seq<PeerRecord>, qs: seq<PeerRecord>, names: set<string>, spoken: set<string>, late: int)
    requires SamePeers(ps, qs) && HeardLate(ps, qs, spoken, late)
    ensures HeardLate(Without(PeerName, ps, names), Without(PeerName, qs, names), spoken, late)
  {
    if |ps| > 0 {
      HeardLateTail(ps, qs, spoken, late);
      HeardLateRest(ps[1..], qs[1..], names, spoken, late);
      HeardLateCons(ps[0], Without(PeerName, ps[1..], names), qs[0], Without(PeerName, qs[1..], names), spoken, late);
    }
  }

  /** Each session action at one place of both lists. */
  lemma HeardLatePlace(self: string, a: Action, t: RouteTable, clock: int, t': RouteTable, clock': int, spoken: set<string>, late: int)
    requires SameButTimes(t, t') && Unique(PeerName, t.peers) && HeardLate(t.peers, t'.peers, spoken, late) && clock' >= late
    requires !a.Tick? && !a.LocalPeerDelete? && !a.LocalPeerCreate?
    ensures HeardLate(Planned(self, a, t, clock).next.peers, Planned(self, a, t', clock').next.peers, spoken + Speakers(a), late)
  {
    if !a.LocalRouteCreate? && !a.LocalRouteDelete? && !a.LocalRouteHealthUpdate? {
      SameIndex(t.peers, t'.peers, a.info.name);
    }
    var ps, qs := Planned(self, a, t, clock).next.peers, Planned(self, a, t', clock').next.peers;
    assert |ps| == |t.peers| && |qs| == |t'.peers|;
    forall i | 0 <= i < |ps| ensures OneHeardLate(ps[i], qs[i], spoken + Speakers(a), late) {
      assert Timeless(t.peers[i]) == Timeless(t'.peers[i]) && OneHeardLate(t.peers[i], t'.peers[i], spoken, late);
      PlaceHeard(self, a, t, clock, i);
      PlaceHeard(self, a, t', clock', i);
      if PeerName(t.peers[i]) in Speakers(a) {
        Sessions.SamePlace(t.peers, t.peers[i], i, a.info.name);
      }
    }
  }

  /** What a session action does to the record at one place. */
  lemma PlaceHeard(self: string, a: Action, t: RouteTable, clock: int, i: nat)
    requires i < |t.peers| && !a.Tick? && !a.LocalPeerDelete? && !a.LocalPeerCreate?
    ensures var ps := Planned(self, a, t, clock).next.peers;
            && i < |ps| && PeerName(ps[i]) == PeerName(t.peers[i])
            && ps[i].lastReceived == if Speakers(a) != {} && IndexOf(PeerName, t.peers, a.info.name) == i then clock else t.peers[i].lastReceived
  {
  }

  lemma TickHeardLate(now: int, t: RouteTable, t': RouteTable, spoken: set<string>, late: int)
    requires SameButTimes(t, t') && HeardLate(t.peers, t'.peers, spoken, late)
    ensures HeardLate(AfterTick(now, t).peers, AfterTick(now, t').peers, spoken, late)
  {
    TickTable(now, t);
    TickTable(now, t');
    forall i | 0 <= i < |t.peers| ensures OneHeardLate(CloseExpired(t.peers[i], now), CloseExpired(t'.peers[i], now), spoken, late) {
      assert OneHeardLate(t.peers[i], t'.peers[i], spoken, late);
    }
  }

  lemma CreateHeardLate(info: PeerInfo, t: RouteTable, t': RouteTable, spoken: set<string>, late: int)
    requires SameButTimes(t, t') && HeardLate(t.peers, t'.peers, spoken, late)
    ensures HeardLate(PlanLocalPeerCreate(info, t).next.peers, PlanLocalPeerCreate(info, t').next.peers, spoken, late)
  {
    SameIndex(t.peers, t'.peers, info.name);
  }

  lemma StepHeardLate(self: string, a: Action, t: RouteTable, clock: int, t': RouteTable, clock': int, spoken: set<string>, late: int)
    requires SameButTimes(t, t') && Unique(PeerName, t.peers) && HeardLate(t.peers, t'.peers, spoken, late) && clock' >= late
    ensures HeardLate(Planned(self, a, t, clock).next.peers, Planned(self, a, t', clock').next.peers, spoken + Speakers(a), late)
  {
    match a
    case LocalPeerDelete(name) =>
      HeardLateRest(t.peers, t'.peers, {name}, spoken, late);
      SameRest(t.peers, t'.peers, {name});
    case LocalPeerCreate(info) => CreateHeardLate(info, t, t', spoken, late);
    case Tick(now) => TickHeardLate(now, t, t', spoken, late);
    case _ => HeardLatePlace(self, a, t, clock, t', clock', spoken, late);
  }

  /** A late reading spares exactly the peers that have spoken. */
  lemma LatePurge(now: int, t: RouteTable, t': RouteTable, spoken: set<string>, late: int, name: string)
    requires SameButTimes(t, t') && HeardLate(t.peers, t'.peers, spoken, late) && now <= late
    ensures name in Purged(now, t') <==> name in Purged(now, t) && name !in spoken
  {
    PurgedIff(now, t, name);
    PurgedIff(now, t', name);
    forall i | 0 <= i < |t.peers|
      ensures && PeerName(t'.peers[i]) == PeerName(t.peers[i]) && t'.peers[i].status == t.peers[i].status
              && (HoldElapsed(t'.peers[i], now) <==> HoldElapsed(t.peers[i], now) && PeerName(t.peers[i]) !in spoken)
    {
      assert Timeless(t.peers[i]) == Timeless(t'.peers[i]) && OneHeardLate(t.peers[i], t'.peers[i], spoken, late);
    }
  }

  lemma LateTick(now: int, t: RouteTable, t': RouteTable, spoken: set<string>, late: int)
    requires SameButTimes(t, t') && HeardLate(t.peers, t'.peers, spoken, late) && now <= late
    ensures Purged(now, t) == Purged(now, t') <==> Purged(now, t) !! spoken
  {
    forall name ensures name in Purged(now, t') <==> name in Purged(now, t) && name !in spoken {
      LatePurge(now, t, t', spoken, late, name);
    }
  }

  /** Every reading of the second execution is at or after the date of every tick. */
  ghost predicate ReadLate(acts: seq<Timed>, late: int) {
    forall i :: 0 <= i < |acts| ==> acts[i].clock >= late && (acts[i].action.Tick? ==> acts[i].action.now <= late)
  }

  /** A second execution read that late stays like the first throughout exactly when no tick of the first purged a peer
      that had spoken. */
  lemma {:induction false} LateRunReproduced(self: string, acts: seq<Timed>, acts': seq<Timed>, t: RouteTable, t': RouteTable, spoken: set<string>, late: int)
    requires SameActions(acts, acts') && ReadLate(acts', late)
    requires SameButTimes(t, t') && HeardLate(t.peers, t'.peers, spoken, late) && WellFormed(self, t)
    ensures AlikeThroughout(self, acts, acts', t, t') <==> PurgesOnlySilent(self, acts, t, spoken)
    decreases acts
  {
    if |acts| > 0 {
      var a, clock, clock' := acts[0].action, acts[0].clock, acts'[0].clock;
      var next, next' := Planned(self, a, t, clock).next, Planned(self, a, t', clock').next;
      assert acts'[0].action == a && clock' >= late;
      StepReproduced(self, a, t, clock, t', clock');
      PlanKeepsWellFormed(self, a, t, clock);
      if a.Tick? {
        LateTick(a.now, t, t', spoken, late);
      }
      if SameButTimes(next, next') {
        StepHeardLate(self, a, t, clock, t', clock', spoken, late);
        LateRunReproduced(self, acts[1..], acts'[1..], next, next', spoken + Speakers(a), late);
      }
    }
  }

  /** Entries after the snapshot are read at or after `late`, their ticks dated at or before it. */
  ghost predicate Restarted(n: Node, clocks: nat -> int, late: int) {
    forall j :: ReplayFrom(n.log) <= j < |n.history| ==> EntryReadLate(n.history[j], clocks(j + 1), late)
  }

  predicate EntryReadLate(x: Timed, reading: int, late: int) {
    reading >= late && (x.action.Tick? ==> x.action.now <= late)
  }

  lemma TailReadLate(n: Node, clocks: nat -> int, late: int)
    requires ReplayFrom(n.log) <= |n.history|
    requires Restarted(n, clocks, late)
    ensures ReadLate(ReadTail(n, clocks), late)
  {
    var again, from := ReadTail(n, clocks), ReplayFrom(n.log);
    forall i | 0 <= i < |again| ensures again[i].clock >= late && (again[i].action.Tick? ==> again[i].action.now <= late) {
      assert again[i] == Reread(n.history, clocks)[from + i];
      assert EntryReadLate(n.history[from + i], clocks(from + i + 1), late);
    }
  }

  /** Recovery after a restart. When each entry after the snapshot is read no earlier than any of those entries' ticks was
      dated, replaying them follows the live run throughout exactly when no tick after the snapshot purged a peer heard
      from since; and then the recovered table is the live one, up to ports and time stamps. */
  lemma RecoveryAfterRestart(cfg: NodeConfig, pool: Option<Pool>, es: seq<Event>, clocks: nat -> int, late: int)
    requires cfg.policy.NoPolicy?
    requires Restarted(Run(cfg, Booted(pool), es), clocks, late)
    ensures var n := Run(cfg, Booted(pool), es);
            && ReplayFrom(n.log) <= |n.history|
            && var base, live, again := BaseOf(cfg.name, n), LiveTail(n), ReadTail(n, clocks);
               && |live| == |again|
               && (AlikeThroughout(cfg.name, live, again, base, base) <==> PurgesOnlySilent(cfg.name, live, base, {}))
               && (PurgesOnlySilent(cfg.name, live, base, {}) ==> SameRouting(Recovered(cfg.name, n.log, clocks), n.bus.table))
  {
    RunKeepsInv(cfg, Booted(pool), es);
    var n := Run(cfg, Booted(pool), es);
    RecoveryFollows(cfg, n, clocks);
    TailReadLate(n, clocks, late);
    LateRunReproduced(cfg.name, LiveTail(n), ReadTail(n, clocks), BaseOf(cfg.name, n), BaseOf(cfg.name, n), {}, late);
  }
}
