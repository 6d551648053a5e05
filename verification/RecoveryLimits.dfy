/** How far recovery depends on the clock and on the port allocator. */
module RecoveryLimits {
  import opened KeyedLists
  import opened RouteTypes
  import opened Journal
  import opened Rib
  import opened RibTheorems
  import opened Runs
  import opened PortAllocator
  import opened BusSpec
  import opened PortErasure
  import opened PortAgreement
  import opened Recovery

  // -------------------------------------------------------------------------
  // The clock
  // -------------------------------------------------------------------------

  /** A tick treats tables that differ in times alone alike exactly when the same hold times have run out in both. */
  lemma TickReproduced(now: int, t: RouteTable, u: RouteTable)
    requires SameButTimes(t, u) && Unique(PeerName, t.peers)
    ensures SameButTimes(AfterTick(now, t), AfterTick(now, u)) <==> Purged(now, t) == Purged(now, u)
  {
    TickTable(now, t);
    TickTable(now, u);
    forall i | 0 <= i < |t.peers| ensures t.peers[i].info == u.peers[i].info && t.peers[i].status == u.peers[i].status {
      assert Timeless(t.peers[i]) == Timeless(u.peers[i]);
    }
    if Purged(now, t) == Purged(now, u) {
      forall i | 0 <= i < |t.peers| ensures Timeless(CloseExpired(t.peers[i], now)) == Timeless(CloseExpired(u.peers[i], now)) {
        ExpiresAlike(now, t, u, i);
        assert Timeless(t.peers[i]) == Timeless(u.peers[i]);
      }
    } else if SameButTimes(AfterTick(now, t), AfterTick(now, u)) {
      forall name ensures name in Purged(now, t) <==> name in Purged(now, u) {
        PurgedBoth(now, t, u, name);
        PurgedBoth(now, u, t, name);
      }
      assert false;
    }
  }

  lemma ExpiresAlike(now: int, t: RouteTable, u: RouteTable, i: nat)
    requires SameButTimes(t, u) && Unique(PeerName, t.peers) && Purged(now, t) == Purged(now, u) && i < |t.peers|
    ensures Expires(t.peers[i], now) <==> Expires(u.peers[i], now)
  {
    forall j | 0 <= j < |t.peers| ensures t.peers[j].info == u.peers[j].info && t.peers[j].status == u.peers[j].status {
      assert Timeless(t.peers[j]) == Timeless(u.peers[j]);
    }
    PurgedIff(now, t, PeerName(t.peers[i]));
    PurgedIff(now, u, PeerName(t.peers[i]));
    forall j | 0 <= j < |t.peers| && PeerName(t.peers[j]) == PeerName(t.peers[i]) ensures j == i {}
  }

  lemma PurgedBoth(now: int, t: RouteTable, u: RouteTable, name: string)
    requires SameButTimes(t, u) && SameButTimes(AfterTick(now, t), AfterTick(now, u))
    ensures name in Purged(now, t) ==> name in Purged(now, u)
  {
    if name in Purged(now, t) && name !in Purged(now, u) {
      NoRouteLost(now, t, u, name);
      PurgedIff(now, t, name);
      var i :| 0 <= i < |t.peers| && PeerName(t.peers[i]) == name && HoldElapsed(t.peers[i], now)
        && (t.peers[i].status == Connected || (t.peers[i].status == Closed && HasStale(t.internal, name)));
      assert t.peers[i].status == Connected;
      ClosedBoth(now, t, u, i);
      PurgedIff(now, u, name);
      assert false;
    }
  }

  lemma NoRouteLost(now: int, t: RouteTable, u: RouteTable, name: string)
    requires SameButTimes(t, u) && SameButTimes(AfterTick(now, t), AfterTick(now, u))
    requires name in Purged(now, t) && name !in Purged(now, u)
    ensures !HasStale(t.internal, name)
  {
    TickTable(now, t);
    TickTable(now, u);
    forall r | r in t.internal ensures Via(r) != name {
      assert r in Without(Via, u.internal, Purged(now, u)) <==> Via(r) !in Purged(now, u);
      assert r in Without(Via, t.internal, Purged(now, t)) <==> Via(r) !in Purged(now, t);
    }
  }

  lemma ClosedBoth(now: int, t: RouteTable, u: RouteTable, i: nat)
    requires SameButTimes(t, u) && SameButTimes(AfterTick(now, t), AfterTick(now, u)) && i < |t.peers|
    requires Expires(t.peers[i], now)
    ensures Expires(u.peers[i], now) && PeerName(u.peers[i]) == PeerName(t.peers[i])
  {
    TickTable(now, t);
    TickTable(now, u);
    assert Timeless(t.peers[i]) == Timeless(u.peers[i]);
    assert Timeless(AfterTick(now, t).peers[i]) == Timeless(AfterTick(now, u).peers[i]);
  }

  /** Two executions of the same actions hold tables that differ in times alone, from first to last. */
  ghost predicate AlikeThroughout(self: string, acts: seq<Timed>, acts': seq<Timed>, t: RouteTable, t': RouteTable)
    requires |acts| == |acts'|
    decreases acts
  {
    && SameButTimes(t, t')
    && (|acts| > 0 ==>
          AlikeThroughout(self, acts[1..], acts'[1..], Planned(self, acts[0].action, t, acts[0].clock).next,
                          Planned(self, acts'[0].action, t', acts'[0].clock).next))
  }

  /** Every tick finds the same hold times run out in both executions. */
  ghost predicate TicksPurgeAlike(self: string, acts: seq<Timed>, acts': seq<Timed>, t: RouteTable, t': RouteTable)
    requires |acts| == |acts'|
    decreases acts
  {
    |acts| > 0 ==>
      && (acts[0].action.Tick? ==> Purged(acts[0].action.now, t) == Purged(acts[0].action.now, t'))
      && TicksPurgeAlike(self, acts[1..], acts'[1..], Planned(self, acts[0].action, t, acts[0].clock).next,
                         Planned(self, acts'[0].action, t', acts'[0].clock).next)
  }

  lemma StepReproduced(self: string, a: Action, t: RouteTable, clock: int, t': RouteTable, clock': int)
    requires SameButTimes(t, t') && Unique(PeerName, t.peers)
    ensures SameButTimes(Planned(self, a, t, clock).next, Planned(self, a, t', clock').next)
            <==> (a.Tick? ==> Purged(a.now, t) == Purged(a.now, t'))
  {
    if a.Tick? {
      TickReproduced(a.now, t, t');
    } else {
      PlanIgnoresClock(self, a, t, clock, t', clock');
    }
  }

  /** Other clock readings lead to the same routes throughout exactly when every tick purges alike. */
  lemma {:induction false} RunReproduced(self: string, acts: seq<Timed>, acts': seq<Timed>, t: RouteTable, t': RouteTable)
    requires SameActions(acts, acts') && SameButTimes(t, t') && WellFormed(self, t)
    ensures AlikeThroughout(self, acts, acts', t, t') <==> TicksPurgeAlike(self, acts, acts', t, t')
    decreases acts
  {
    if |acts| > 0 {
      var x, x' := acts[0], acts'[0];
      StepReproduced(self, x.action, t, x.clock, t', x'.clock);
      PlanKeepsWellFormed(self, x.action, t, x.clock);
      var next, next' := Planned(self, x.action, t, x.clock).next, Planned(self, x'.action, t', x'.clock).next;
      if SameButTimes(next, next') {
        RunReproduced(self, acts[1..], acts'[1..], next, next');
      }
    }
  }

  lemma {:induction false} AlikeAtTheEnd(self: string, acts: seq<Timed>, acts': seq<Timed>, t: RouteTable, t': RouteTable)
    requires SameActions(acts, acts') && AlikeThroughout(self, acts, acts', t, t')
    ensures SameButTimes(Replay(self, acts, t), Replay(self, acts', t'))
    decreases acts
  {
    if |acts| > 0 {
      AlikeAtTheEnd(self, acts[1..], acts'[1..], Planned(self, acts[0].action, t, acts[0].clock).next,
                    Planned(self, acts'[0].action, t', acts'[0].clock).next);
    }
  }

  lemma {:induction false} TickFreePurgesAlike(self: string, acts: seq<Timed>, acts': seq<Timed>, t: RouteTable, t': RouteTable)
    requires |acts| == |acts'| && TickFree(acts)
    ensures TicksPurgeAlike(self, acts, acts', t, t')
    decreases acts
  {
    if |acts| > 0 {
      TickFreePurgesAlike(self, acts[1..], acts'[1..], Planned(self, acts[0].action, t, acts[0].clock).next,
                          Planned(self, acts'[0].action, t', acts'[0].clock).next);
    }
  }

  /** Equal except for ports and for when peers connected and were last heard. */
  ghost predicate SameRouting(t: RouteTable, u: RouteTable) {
    SamePeers(t.peers, u.peers) && SameChannels(t.local, u.local) && SameRoutes(t.internal, u.internal)
  }

  /** The history as recovery plans it. */
  function Reread(history: seq<Timed>, clocks: nat -> int): seq<Timed> {
    seq(|history|, i requires 0 <= i < |history| => At(history[i].action, clocks(i + 1)))
  }

  /** The snapshot as the history replays to it. */
  function BaseOf(self: string, n: Node): RouteTable
    requires ReplayFrom(n.log) <= |n.history|
  {
    Replay(self, n.history[..ReplayFrom(n.log)], EmptyTable)
  }

  /** What was journaled since the snapshot. */
  function LiveTail(n: Node): seq<Timed>
    requires ReplayFrom(n.log) <= |n.history|
  {
    n.history[ReplayFrom(n.log)..]
  }

  /** The same as recovery reads it. */
  function ReadTail(n: Node, clocks: nat -> int): seq<Timed>
    requires ReplayFrom(n.log) <= |n.history|
  {
    Reread(n.history, clocks)[ReplayFrom(n.log)..]
  }

  /** If the two readings of the tail stay alike, recovery rebuilds the live routes. */
  lemma RecoveryFollows(cfg: NodeConfig, n: Node, clocks: nat -> int)
    requires RunInv(cfg.name, n)
    ensures ReplayFrom(n.log) <= |n.history| && WellFormed(cfg.name, BaseOf(cfg.name, n)) && SameActions(LiveTail(n), ReadTail(n, clocks))
    ensures AlikeThroughout(cfg.name, LiveTail(n), ReadTail(n, clocks), BaseOf(cfg.name, n), BaseOf(cfg.name, n))
            ==> SameRouting(Recovered(cfg.name, n.log, clocks), n.bus.table)
  {
    RecoveredIs(cfg.name, n.log, n.history, Reread(n.history, clocks), clocks);
    var base, live, again := BaseOf(cfg.name, n), LiveTail(n), ReadTail(n, clocks);
    ReplayKeepsWellFormed(cfg.name, n.history[..ReplayFrom(n.log)], EmptyTable);
    if AlikeThroughout(cfg.name, live, again, base, base) {
      AlikeAtTheEnd(cfg.name, live, again, base, base);
      ReplaySplit(cfg.name, n.history, ReplayFrom(n.log), EmptyTable);
      SameRoutingTrans(Recovered(cfg.name, n.log, clocks), Replay(cfg.name, again, base), Replay(cfg.name, n.history, EmptyTable), n.bus.table);
    }
  }

  /** Recovery at any later time, whatever the clock reads then: it follows the live run throughout exactly when the
      replayed ticks find the same hold times run out, which they do if there are none; and then it rebuilds the live routes. */
  lemma RecoveryAtAnyTime(cfg: NodeConfig, pool: Option<Pool>, es: seq<Event>, clocks: nat -> int)
    requires cfg.policy.NoPolicy?
    ensures var n := Run(cfg, Booted(pool), es);
            && ReplayFrom(n.log) <= |n.history|
            && var base, live, again := BaseOf(cfg.name, n), LiveTail(n), ReadTail(n, clocks);
               && |live| == |again|
               && (AlikeThroughout(cfg.name, live, again, base, base) <==> TicksPurgeAlike(cfg.name, live, again, base, base))
               && (TickFree(live) ==> TicksPurgeAlike(cfg.name, live, again, base, base))
               && (TicksPurgeAlike(cfg.name, live, again, base, base) ==> SameRouting(Recovered(cfg.name, n.log, clocks), n.bus.table))
  {
    RunKeepsInv(cfg, Booted(pool), es);
    var n := Run(cfg, Booted(pool), es);
    RecoveryFollows(cfg, n, clocks);
    var base, live, again := BaseOf(cfg.name, n), LiveTail(n), ReadTail(n, clocks);
    RunReproduced(cfg.name, live, again, base, base);
    if TickFree(live) {
      TickFreePurgesAlike(cfg.name, live, again, base, base);
    }
  }

  lemma SameRoutingTrans(t: RouteTable, u: RouteTable, v: RouteTable, w: RouteTable)
    requires SameButPorts(t, u) && SameButTimes(v, u) && SameButPorts(w, v)
    ensures SameRouting(t, w)
  {
  }

  /** Connect a peer, then let a tick find it silent beyond its hold time. */
  function SilentPeer(info: PeerInfo, connected: int, now: int): seq<Event> {
    [DispatchEvent(LocalPeerCreate(info), connected, {}),
     DispatchEvent(InternalProtocolConnected(info), connected, {}),
     DispatchEvent(Tick(now), now, {})]
  }

  function Newcomer(info: PeerInfo): PeerRecord { PeerRecord(info, Initializing, 0, DEFAULT_HOLD_TIME, 0, 0) }

  function Live(info: PeerInfo, at: int): PeerRecord {
    Newcomer(info).(status := Connected, lastConnected := at, lastReceived := at)
  }

  /** The table of a node whose only peer is `p`. */
  function Only(p: PeerRecord): RouteTable { RouteTable([], [p], []) }

  lemma CreateOnly(self: string, info: PeerInfo, clock: int)
    ensures var plan := Planned(self, LocalPeerCreate(info), EmptyTable, clock); plan.changed && plan.next == Only(Newcomer(info))
  {
  }

  lemma ConnectOnly(self: string, info: PeerInfo, clock: int)
    ensures var plan := Planned(self, InternalProtocolConnected(info), Only(Newcomer(info)), clock);
            plan.changed && plan.next == Only(Live(info, clock))
  {
  }

  lemma TickOnly(self: string, now: int, p: PeerRecord, clock: int)
    requires p.status == Connected
    ensures var plan := Planned(self, Tick(now), Only(p), clock);
            plan.next == Only(CloseExpired(p, now)) && (plan.changed <==> Expires(p, now))
  {
    TickTable(now, Only(p));
    forall name ensures name in Purged(now, Only(p)) <==> name == PeerName(p) && Expires(p, now) {
      PurgedIff(now, Only(p), name);
      assert Only(p).peers[0] == p;
    }
  }

  lemma StepOnly(cfg: NodeConfig, n: Node, a: Action, clock: int, t: RouteTable)
    requires cfg.policy.NoPolicy? && !LacksToken(a) && n.bus.pool == None
    requires Planned(cfg.name, a, n.bus.table, clock).changed && Planned(cfg.name, a, n.bus.table, clock).next == t
    ensures var n' := Step(cfg, n, DispatchEvent(a, clock, {}));
            n'.bus.table == t && n'.bus.pool == None && n'.log == n.log.Append(a, cfg.name)
  {
  }

  lemma RunCons(cfg: NodeConfig, n: Node, e: Event, es: seq<Event>)
    ensures Run(cfg, n, [e] + es) == Run(cfg, Step(cfg, n, e), es)
  {
    assert ([e] + es)[1..] == es;
  }

  lemma RunThree(cfg: NodeConfig, n: Node, e1: Event, e2: Event, e3: Event)
    ensures Run(cfg, n, [e1, e2, e3]) == Step(cfg, Step(cfg, Step(cfg, n, e1), e2), e3)
  {
    var n1 := Step(cfg, n, e1);
    assert [e1, e2, e3] == [e1] + ([e2] + ([e3] + []));
    RunCons(cfg, n, e1, [e2] + ([e3] + []));
    RunCons(cfg, n1, e2, [e3] + []);
    RunCons(cfg, Step(cfg, n1, e2), e3, []);
  }

  /** The log of the three journaled events. */
  function SilentLog(self: string, info: PeerInfo, now: int): Log {
    EmptyLog.Append(LocalPeerCreate(info), self).Append(InternalProtocolConnected(info), self).Append(Tick(now), self)
  }

  lemma SilentPeerLive(cfg: NodeConfig, info: PeerInfo, connected: int, now: int)
    requires cfg.policy.NoPolicy? && !LacksToken(LocalPeerCreate(info))
    requires connected > 0 && now - connected > DEFAULT_HOLD_TIME
    ensures var n := Run(cfg, Booted(None), SilentPeer(info, connected, now));
            n.bus.table == Only(CloseExpired(Live(info, connected), now)) && n.log == SilentLog(cfg.name, info, now)
  {
    var es := SilentPeer(info, connected, now);
    RunThree(cfg, Booted(None), es[0], es[1], es[2]);
    var n1 := Step(cfg, Booted(None), es[0]);
    CreateOnly(cfg.name, info, connected);
    StepOnly(cfg, Booted(None), es[0].action, connected, Only(Newcomer(info)));
    var n2 := Step(cfg, n1, es[1]);
    ConnectOnly(cfg.name, info, connected);
    StepOnly(cfg, n1, es[1].action, connected, Only(Live(info, connected)));
    TickOnly(cfg.name, now, Live(info, connected), now);
    StepOnly(cfg, n2, es[2].action, now, Only(CloseExpired(Live(info, connected), now)));
  }

  lemma ReplayCons(self: string, e: Entry, es: seq<Entry>, t: RouteTable, clocks: nat -> int)
    ensures ReplayEntries(self, [e] + es, t, clocks) == ReplayEntries(self, es, Planned(self, e.action, t, clocks(e.seqNo)).next, clocks)
  {
    assert ([e] + es)[1..] == es;
  }

  lemma SilentPeerRecovered(self: string, info: PeerInfo, now: int, clocks: nat -> int)
    ensures Recovered(self, SilentLog(self, info, now), clocks) == Only(CloseExpired(Live(info, clocks(2)), now))
  {
    var e1, e2, e3 := Entry(1, LocalPeerCreate(info), self), Entry(2, InternalProtocolConnected(info), self), Entry(3, Tick(now), self);
    assert SilentLog(self, info, now).entries == [e1, e2, e3];
    FromNone([e1, e2, e3], 1);
    assert [e1, e2, e3] == [e1] + ([e2] + ([e3] + []));
    ReplayCons(self, e1, [e2] + ([e3] + []), EmptyTable, clocks);
    CreateOnly(self, info, clocks(1));
    ReplayCons(self, e2, [e3] + [], Only(Newcomer(info)), clocks);
    ConnectOnly(self, info, clocks(2));
    ReplayCons(self, e3, [], Only(Live(info, clocks(2))), clocks);
    TickOnly(self, now, Live(info, clocks(2)), clocks(3));
  }

  /** With ticks it need not: a session the live node closed is open again after recovery exactly when the recovery clock,
      read at the replayed connection, puts the tick within the hold time. */
  lemma LateClockRevives(cfg: NodeConfig, info: PeerInfo, connected: int, now: int, clocks: nat -> int)
    requires cfg.policy.NoPolicy? && !LacksToken(LocalPeerCreate(info))
    requires connected > 0 && now - connected > DEFAULT_HOLD_TIME
    ensures var n := Run(cfg, Booted(None), SilentPeer(info, connected, now));
            var rec := Recovered(cfg.name, n.log, clocks);
            && |n.bus.table.peers| == |rec.peers| == 1 && n.bus.table.peers[0].status == Closed
            && (rec.peers[0].status == Connected <==> clocks(2) <= 0 || now - clocks(2) <= DEFAULT_HOLD_TIME)
  {
    SilentPeerLive(cfg, info, connected, now);
    SilentPeerRecovered(cfg.name, info, now, clocks);
  }

  // -------------------------------------------------------------------------
  // The allocator
  // -------------------------------------------------------------------------

  /** Creates `x`, compacts at once, restarts on the snapshot, then creates `y`. */
  lemma RestartHandsOutAPortTwice(cfg: NodeConfig, entries: seq<PortEntry>, x: DataChannel, y: DataChannel, c: int, c': int, clocks: nat -> int)
    requires cfg.policy.NoPolicy? && !Ported(x) && !Ported(y) && x.name != y.name
    requires var pool := Created(entries, []); |pool.free| > 0 && pool.free[0] != 0
    ensures var pool := Created(entries, []);
            var n := Run(cfg, Booted(Some(pool)), [DispatchEvent(LocalRouteCreate(x), c, {}), CompactEvent(0, 0)]);
            var t := Recovered(cfg.name, n.log, clocks);
            var s := Dispatched(cfg, BusState(t, Some(pool), map[]), LocalRouteCreate(y), c', {}).state;
            var port := Some(pool.free[0]);
            t.local == [x.(envoyPort := port)] && s.table.local == [x.(envoyPort := port), y.(envoyPort := port)]
  {
    var pool := Created(entries, []);
    var x' := x.(envoyPort := Some(pool.free[0]));
    var es := [DispatchEvent(LocalRouteCreate(x), c, {}), CompactEvent(0, 0)];
    var n1 := Step(cfg, Booted(Some(pool)), es[0]);
    CreateStamps(cfg.name, x, [], [], c, pool);
    assert n1.bus.table == RouteTable([x'], [], []) && n1.log == EmptyLog.Append(LocalRouteCreate(x), cfg.name);
    var n2 := Step(cfg, n1, es[1]);
    assert n2.log == Log([], 2, Some(Snapshot(1, n1.bus.table)));
    assert es == [es[0]] + ([es[1]] + []);
    RunCons(cfg, Booted(Some(pool)), es[0], [es[1]] + []);
    RunCons(cfg, n1, es[1], []);
    CreateStamps(cfg.name, y, [x'], [], c', pool);
  }
}
