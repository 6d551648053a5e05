/** The tick interval, the keepalives it drives, and why they keep the far side's hold timer from expiring. */
module Keepalive {
  import opened KeyedLists
  import opened RouteTypes
  import opened Rib
  import opened RibTheorems
  import opened BusSpec
  import opened Bus
  import opened DispatchFacts
  import opened PortAgreement

  const DEFAULT_TICK := 30_000

  function Larger(a: int, b: int): int { if a >= b then a else b }

  function HoldTimes(t: RouteTable): seq<int> {
    seq(|t.peers|, i requires 0 <= i < |t.peers| => t.peers[i].holdTime)
  }

  /** The smallest positive hold time, or 0 when there is none. */
  function MinActive(hs: seq<int>): (m: int)
    ensures m >= 0
    ensures m == 0 ==> forall h :: h in hs ==> h <= 0
    ensures m > 0 ==> m in hs && forall h :: h in hs && h > 0 ==> m <= h
  {
    if |hs| == 0 then 0
    else
      var m := MinActive(hs[1..]);
      assert forall h :: h in hs <==> h == hs[0] || h in hs[1..];
      if hs[0] > 0 && (m == 0 || hs[0] < m) then hs[0] else m
  }

  function Interval(current: int, hs: seq<int>): int {
    if MinActive(hs) == 0 then current else Larger(1000, MinActive(hs) / 3)
  }

  /** `m` is the smallest of the positive hold times. */
  predicate SmallestActive(m: int, hs: seq<int>) {
    m > 0 && m in hs && forall h :: h in hs && h > 0 ==> m <= h
  }

  /** A third of the hold time, rounded down, and one second at least. */
  predicate ThirdOrSecond(interval: int, hold: int) {
    if hold >= 3000 then 3 * interval <= hold < 3 * (interval + 1) else interval == 1000
  }

  lemma IntervalIs(current: int, hs: seq<int>)
    ensures (forall h :: h in hs ==> h <= 0) ==> Interval(current, hs) == current
    ensures forall m :: SmallestActive(m, hs) ==> ThirdOrSecond(Interval(current, hs), m)
  {
    forall m | SmallestActive(m, hs) ensures ThirdOrSecond(Interval(current, hs), m) {
      assert m == MinActive(hs);
    }
  }

  class TickManager {
    var intervalMs: int
    var running: bool

    constructor ()
      ensures intervalMs == DEFAULT_TICK && !running
    {
      intervalMs, running := DEFAULT_TICK, false;
    }

    method Start()
      modifies this
      ensures running && intervalMs == old(intervalMs)
    {
      running := true;
    }

    method Stop()
      modifies this
      ensures !running && intervalMs == old(intervalMs)
    {
      running := false;
    }

    method Recalculate(holdTimes: seq<int>)
      modifies this
      ensures intervalMs == Interval(old(intervalMs), holdTimes) && running == old(running)
      ensures (forall h :: h in holdTimes ==> h <= 0) ==> intervalMs == old(intervalMs)
      ensures forall m :: SmallestActive(m, holdTimes) ==> ThirdOrSecond(intervalMs, m)
    {
      IntervalIs(intervalMs, holdTimes);
      var minHold := 0;
      for i := 0 to |holdTimes|
        invariant minHold >= 0
        invariant minHold == 0 ==> forall j :: 0 <= j < i ==> holdTimes[j] <= 0
        invariant minHold > 0 ==> minHold in holdTimes && forall j :: 0 <= j < i && holdTimes[j] > 0 ==> minHold <= holdTimes[j]
      {
        if holdTimes[i] > 0 && (minHold == 0 || holdTimes[i] < minHold) {
          minHold := holdTimes[i];
        }
      }
      if minHold == 0 {
        return;
      }
      var newInterval := Larger(1000, minHold / 3);
      if newInterval != intervalMs {
        intervalMs := newInterval;
        if running {
          Stop();
          Start();
        }
      }
    }
  }

  predicate RetunesTicks(a: Action) { a.InternalProtocolOpen? || a.InternalProtocolConnected? }

  /** The service around the bus: a successful open or connect retunes the tick. */
  class OrchestratorService {
    const bus: OrchestratorBus
    const ticks: TickManager

    constructor (bus: OrchestratorBus)
      ensures this.bus == bus && fresh(ticks) && ticks.intervalMs == DEFAULT_TICK && !ticks.running
    {
      this.bus := bus;
      ticks := new TickManager();
    }

    method Start()
      modifies ticks
      ensures ticks.running && ticks.intervalMs == Interval(old(ticks.intervalMs), HoldTimes(bus.rib.state))
    {
      ticks.Recalculate(HoldTimes(bus.rib.state));
      ticks.Start();
    }

    method Dispatch(a: Action, clock: int, up: set<string>) returns (r: DispatchResult)
      requires bus.rib.nodeId == bus.cfg.name
      modifies bus, bus.rib, bus.rib.journal, bus.allocator, ticks
      ensures var o := Dispatched(bus.cfg, old(bus.State()), a, clock, up);
              && bus.State() == o.state && r == o.result
              && ticks.intervalMs == IntervalAfter(old(ticks.intervalMs), a, o)
      ensures !(r.Success? && (a.InternalProtocolOpen? || a.InternalProtocolConnected?)) ==> ticks.intervalMs == old(ticks.intervalMs)
      ensures r.Success? && (a.InternalProtocolOpen? || a.InternalProtocolConnected?) ==>
                forall p :: p in bus.State().table.peers && SmallestActive(p.holdTime, HoldTimes(bus.State().table)) ==>
                  ThirdOrSecond(ticks.intervalMs, p.holdTime)
    {
      r := bus.Dispatch(a, clock, up);
      if r.Success? && RetunesTicks(a) {
        ticks.Recalculate(HoldTimes(bus.rib.state));
      }
    }
  }

  function IntervalAfter(current: int, a: Action, o: Outcome): int {
    if o.result.Success? && RetunesTicks(a) then Interval(current, HoldTimes(o.state.table)) else current
  }

  // -------------------------------------------------------------------------
  // The interval is short enough for every peer
  // -------------------------------------------------------------------------

  /** No hold time exceeds the default, and the interval is at most a third of each (or one second). */
  ghost predicate TickFits(t: RouteTable, interval: int) {
    && interval <= DEFAULT_TICK
    && forall p :: p in t.peers ==> p.holdTime <= DEFAULT_HOLD_TIME && (p.holdTime > 0 ==> interval <= Larger(1000, p.holdTime / 3))
  }

  ghost predicate HoldsBounded(t: RouteTable) {
    forall p :: p in t.peers ==> p.holdTime <= DEFAULT_HOLD_TIME
  }

  lemma RetuneFits(t: RouteTable, interval: int)
    requires HoldsBounded(t) && interval <= DEFAULT_TICK
    ensures TickFits(t, Interval(interval, HoldTimes(t)))
  {
    var hs := HoldTimes(t);
    var m := MinActive(hs);
    forall p | p in t.peers ensures p.holdTime in hs {
      var i :| 0 <= i < |t.peers| && t.peers[i] == p;
      assert hs[i] == p.holdTime;
    }
    if m > 0 {
      var i :| 0 <= i < |hs| && hs[i] == m;
      assert t.peers[i] in t.peers && t.peers[i].holdTime == m;
    }
  }

  /** Hold times are set by opens and connects alone, and never above the default. */
  lemma PlanHolds(self: string, a: Action, t: RouteTable, clock: int, p: PeerRecord)
    requires HoldsBounded(t) && p in Planned(self, a, t, clock).next.peers
    ensures p.holdTime <= DEFAULT_HOLD_TIME
    ensures !RetunesTicks(a) ==> p.holdTime == DEFAULT_HOLD_TIME || exists q :: q in t.peers && q.holdTime == p.holdTime
  {
    var peers := Planned(self, a, t, clock).next.peers;
    var i :| 0 <= i < |peers| && peers[i] == p;
    assert forall j :: 0 <= j < |t.peers| ==> t.peers[j] in t.peers;
    if !a.LocalPeerDelete? && !a.LocalPeerCreate? && !RetunesTicks(a) {
      assert p.holdTime == t.peers[i].holdTime;
    }
  }

  /** After every dispatch the tick interval is at most max(1000, holdTime / 3) for every peer with a hold time. */
  lemma DispatchKeepsTickFits(cfg: NodeConfig, s: BusState, i: Input, interval: int)
    requires TickFits(s.table, interval)
    ensures var o := Dispatched(cfg, s, i.action, i.clock, i.up); TickFits(o.state.table, IntervalAfter(interval, i.action, o))
  {
    var o := Dispatched(cfg, s, i.action, i.clock, i.up);
    TableAfter(cfg, s, i.action, i.clock, i.up);
    var admitted := ApplyInboundPolicy(cfg.policy, i.action, s.table);
    if !LacksToken(i.action) && admitted.Some? {
      var next := Planned(cfg.name, admitted.value, s.table, i.clock).next;
      forall p | p in next.peers
        ensures p.holdTime <= DEFAULT_HOLD_TIME
        ensures !RetunesTicks(i.action) && p.holdTime > 0 ==> interval <= Larger(1000, p.holdTime / 3)
      {
        PlanHolds(cfg.name, admitted.value, s.table, i.clock, p);
      }
      RetuneFits(next, interval);
    }
  }

  function RunInterval(cfg: NodeConfig, s: BusState, interval: int, inputs: seq<Input>): int
    decreases inputs
  {
    if |inputs| == 0 then interval
    else
      var o := Dispatched(cfg, s, inputs[0].action, inputs[0].clock, inputs[0].up);
      RunInterval(cfg, o.state, IntervalAfter(interval, inputs[0].action, o), inputs[1..])
  }

  lemma {:induction false} RunKeepsTickFits(cfg: NodeConfig, s: BusState, interval: int, inputs: seq<Input>)
    requires TickFits(s.table, interval)
    ensures TickFits(RunBus(cfg, s, inputs).table, RunInterval(cfg, s, interval, inputs))
    decreases inputs
  {
    if |inputs| > 0 {
      var o := Dispatched(cfg, s, inputs[0].action, inputs[0].clock, inputs[0].up);
      DispatchKeepsTickFits(cfg, s, inputs[0], interval);
      RunKeepsTickFits(cfg, o.state, IntervalAfter(interval, inputs[0].action, o), inputs[1..]);
    }
  }

  // -------------------------------------------------------------------------
  // Keepalive gaps
  // -------------------------------------------------------------------------

  lemma {:induction false} RememberedIs(sent: map<string, int>, names: seq<string>, now: int, up: set<string>, name: string)
    ensures LastSent(Remembered(sent, names, now, up), name) == if name in names && name in up then now else LastSent(sent, name)
    decreases names
  {
    if |names| > 0 {
      RememberedIs(if names[0] in up then sent[names[0] := now] else sent, names[1..], now, up, name);
    }
  }

  lemma {:induction false} NeedingMember(ps: seq<PeerRecord>, sent: map<string, int>, now: int, name: string)
    ensures name in Needing(ps, sent, now) <==> exists p :: p in ps && PeerName(p) == name && NeedsKeepalive(p, sent, now)
  {
    if |ps| > 0 {
      NeedingMember(ps[1..], sent, now, name);
      assert forall p :: p in ps <==> p == ps[0] || p in ps[1..];
    }
  }

  function AfterTickSend(last: int, hold: int, now: int): int { if 3 * (now - last) > hold then now else last }

  /** A tick sends a reachable connected peer a keepalive exactly when a third of its hold time has passed. */
  lemma TickSends(t: RouteTable, p: PeerRecord, sent: map<string, int>, now: int, up: set<string>)
    requires Unique(PeerName, t.peers) && p in t.peers && p.status == Connected && p.holdTime > 0 && PeerName(p) in up
    ensures LastSent(SentAfter(Tick(now), t, sent, up), PeerName(p)) == AfterTickSend(LastSent(sent, PeerName(p)), p.holdTime, now)
  {
    RememberedIs(sent, Needing(t.peers, sent, now), now, up, PeerName(p));
    NeedingMember(t.peers, sent, now, PeerName(p));
    forall q | q in t.peers && PeerName(q) == PeerName(p) ensures q == p {
      UniqueMember(PeerName, t.peers, q, p);
    }
  }

  /** The keepalive times for a peer with hold time `hold` when ticks fire at `ticks`. */
  function SendTimes(last: int, hold: int, ticks: seq<int>): seq<int>
    decreases ticks
  {
    if |ticks| == 0 then []
    else if 3 * (ticks[0] - last) > hold then [ticks[0]] + SendTimes(ticks[0], hold, ticks[1..])
    else SendTimes(last, hold, ticks[1..])
  }

  /** Ticks in order, none more than a third of the hold time after the one before it, the first of them after `since`. */
  ghost predicate Steady(since: int, hold: int, ticks: seq<int>) {
    && (|ticks| > 0 ==> 0 <= 3 * (ticks[0] - since) <= hold)
    && forall i :: 0 <= i < |ticks| - 1 ==> 0 <= 3 * (ticks[i + 1] - ticks[i]) <= hold
  }

  /** Consecutive keepalives, the last one before the run included, are at most two thirds of the hold time apart, and at
      the end of the run the last one is at most a third old. */
  lemma {:induction false} GapsAreShort(last: int, since: int, hold: int, ticks: seq<int>)
    requires hold > 0 && last <= since && 3 * (since - last) <= hold && Steady(since, hold, ticks)
    ensures var all := [last] + SendTimes(last, hold, ticks);
            && (forall i :: 0 <= i < |all| - 1 ==> 0 <= 3 * (all[i + 1] - all[i]) <= 2 * hold)
            && (|ticks| > 0 ==> 0 <= 3 * (ticks[|ticks| - 1] - all[|all| - 1]) <= hold)
    decreases ticks
  {
    if |ticks| > 0 {
      var now, rest := ticks[0], ticks[1..];
      var last' := AfterTickSend(last, hold, now);
      assert Steady(now, hold, rest) by {
        forall i | 0 <= i < |rest| - 1 ensures 0 <= 3 * (rest[i + 1] - rest[i]) <= hold {
          assert rest[i] == ticks[i + 1] && rest[i + 1] == ticks[(i + 1) + 1];
        }
        if |rest| > 0 {
          assert rest[0] == ticks[0 + 1];
        }
      }
      GapsAreShort(last', now, hold, rest);
      var all, tail := [last] + SendTimes(last, hold, ticks), [last'] + SendTimes(last', hold, rest);
      if last' == now && 3 * (now - last) > hold {
        assert all == [last] + tail;
        forall i | 0 <= i < |all| - 1 ensures 0 <= 3 * (all[i + 1] - all[i]) <= 2 * hold {
          if i > 0 {
            assert all[i] == tail[i - 1] && all[i + 1] == tail[(i - 1) + 1];
          }
        }
        assert all[|all| - 1] == tail[|tail| - 1];
      } else {
        assert all == tail;
      }
      if |rest| > 0 {
        assert ticks[|ticks| - 1] == rest[|rest| - 1];
      }
    }
  }

  /** The tick manager's interval is steady enough for every peer with a hold time of at least three seconds. */
  lemma TicksAreSteady(t: RouteTable, p: PeerRecord, interval: int, since: int, ticks: seq<int>)
    requires TickFits(t, interval) && p in t.peers && p.holdTime >= 3000
    requires |ticks| > 0 ==> 0 <= ticks[0] - since <= interval
    requires forall i :: 0 <= i < |ticks| - 1 ==> 0 <= ticks[i + 1] - ticks[i] <= interval
    ensures Steady(since, p.holdTime, ticks)
  {
    assert 3 * interval <= p.holdTime;
    forall i | 0 <= i < |ticks| - 1 ensures 0 <= 3 * (ticks[i + 1] - ticks[i]) <= p.holdTime {
      assert 0 <= ticks[i + 1] - ticks[i] <= interval;
    }
  }

  // -------------------------------------------------------------------------
  // Keepalives over a run
  // -------------------------------------------------------------------------

  lemma {:induction false} KeepaliveMember(names: seq<string>, up: set<string>, name: string)
    ensures SendKeepalive(name) in KeepalivesTo(names, up) <==> name in names && name in up
  {
    if |names| > 0 {
      KeepaliveMember(names[1..], up, name);
    }
  }

  lemma NoticesAreUpdates(cfg: NodeConfig, a: Action, plan: PlanResult, up: set<string>, name: string)
    ensures SendKeepalive(name) !in Notified(cfg, a, plan, up)
  {
    FanOutMember(cfg, ConnectedPeers(plan.next), plan.changes, up, SendKeepalive(name));
  }

  /** What a dispatch does about keepalives: nothing, unless it is a tick; a tick works on the table it commits. */
  lemma DispatchKeepalives(cfg: NodeConfig, s: BusState, i: Input, name: string)
    ensures var o := Dispatched(cfg, s, i.action, i.clock, i.up);
            && o.state.sent == SentAfter(i.action, o.state.table, s.sent, i.up)
            && (SendKeepalive(name) in o.sends <==>
                  i.action.Tick? && name in i.up && name in Needing(o.state.table.peers, s.sent, i.action.now))
  {
    var o := Dispatched(cfg, s, i.action, i.clock, i.up);
    var admitted := ApplyInboundPolicy(cfg.policy, i.action, s.table);
    if !LacksToken(i.action) && admitted.Some? {
      NoticesAreUpdates(cfg, i.action, PlanPorts(Planned(cfg.name, admitted.value, s.table, i.clock), s.pool), i.up, name);
    }
    if i.action.Tick? {
      KeepaliveMember(Needing(o.state.table.peers, s.sent, i.action.now), i.up, name);
    }
  }

  /** A keepalive goes out exactly to the connected peers with a hold time, a third of which has passed since the last one,
      and only what the transport takes is remembered. */
  lemma KeepaliveSentIff(cfg: NodeConfig, s: BusState, i: Input, name: string)
    ensures var o, last := Dispatched(cfg, s, i.action, i.clock, i.up), if name in s.sent then s.sent[name] else 0;
            && (SendKeepalive(name) in o.sends
                <==> i.action.Tick? && name in i.up
                     && exists p :: p in o.state.table.peers && p.info.name == name && p.status == Connected && p.holdTime > 0
                                    && 3 * (i.action.now - last) > p.holdTime)
            && (if name in o.state.sent then o.state.sent[name] else 0) == if SendKeepalive(name) in o.sends then i.action.now else last
  {
    var o := Dispatched(cfg, s, i.action, i.clock, i.up);
    DispatchKeepalives(cfg, s, i, name);
    if i.action.Tick? {
      NeedingMember(o.state.table.peers, s.sent, i.action.now, name);
      RememberedIs(s.sent, Needing(o.state.table.peers, s.sent, i.action.now), i.action.now, i.up, name);
    }
  }

  ghost predicate ConnectedWith(t: RouteTable, name: string, hold: int) {
    exists p :: p in t.peers && PeerName(p) == name && p.status == Connected && p.holdTime == hold
  }

  /** After every dispatch the peer is connected with this hold time, and sends reach it. */
  ghost predicate KeptUp(cfg: NodeConfig, s: BusState, inputs: seq<Input>, name: string, hold: int)
    decreases inputs
  {
    |inputs| > 0 ==>
      var o := Dispatched(cfg, s, inputs[0].action, inputs[0].clock, inputs[0].up);
      name in inputs[0].up && ConnectedWith(o.state.table, name, hold) && KeptUp(cfg, o.state, inputs[1..], name, hold)
  }

  function TickTimes(inputs: seq<Input>): seq<int> {
    if |inputs| == 0 then []
    else (if inputs[0].action.Tick? then [inputs[0].action.now] else []) + TickTimes(inputs[1..])
  }

  /** The keepalive times that one input adds. */
  function KeepaliveNow(cfg: NodeConfig, s: BusState, i: Input, name: string): seq<int> {
    if i.action.Tick? && SendKeepalive(name) in Dispatched(cfg, s, i.action, i.clock, i.up).sends then [i.action.now] else []
  }

  /** The ticks of a run at which the peer is sent a keepalive. */
  function KeepaliveTimes(cfg: NodeConfig, s: BusState, inputs: seq<Input>, name: string): seq<int>
    decreases inputs
  {
    if |inputs| == 0 then []
    else
      var o := Dispatched(cfg, s, inputs[0].action, inputs[0].clock, inputs[0].up);
      KeepaliveNow(cfg, s, inputs[0], name) + KeepaliveTimes(cfg, o.state, inputs[1..], name)
  }

  lemma StepSendsKeepalive(cfg: NodeConfig, s: BusState, i: Input, name: string, hold: int)
    requires WellFormed(cfg.name, s.table) && hold > 0 && name in i.up
    requires ConnectedWith(Dispatched(cfg, s, i.action, i.clock, i.up).state.table, name, hold)
    ensures var last, last' := LastSent(s.sent, name), LastSent(Dispatched(cfg, s, i.action, i.clock, i.up).state.sent, name);
            if i.action.Tick? then
              last' == AfterTickSend(last, hold, i.action.now)
              && KeepaliveNow(cfg, s, i, name) == if 3 * (i.action.now - last) > hold then [i.action.now] else []
            else last' == last && KeepaliveNow(cfg, s, i, name) == []
  {
    DispatchKeepalives(cfg, s, i, name);
    if i.action.Tick? {
      var t := Dispatched(cfg, s, i.action, i.clock, i.up).state.table;
      DispatchKeepsWellFormed(cfg, s, i.action, i.clock, i.up);
      var p :| p in t.peers && PeerName(p) == name && p.status == Connected && p.holdTime == hold;
      TickSends(t, p, s.sent, i.action.now, i.up);
      NeedingMember(t.peers, s.sent, i.action.now, name);
      forall q | q in t.peers && PeerName(q) == name ensures q == p {
        UniqueMember(PeerName, t.peers, q, p);
      }
    }
  }

  lemma SendTimesCons(last: int, hold: int, now: int, ticks: seq<int>)
    ensures SendTimes(last, hold, [now] + ticks)
            == (if 3 * (now - last) > hold then [now] else []) + SendTimes(AfterTickSend(last, hold, now), hold, ticks)
  {
    assert ([now] + ticks)[1..] == ticks;
  }

  /** Over a run the peer is sent keepalives at exactly the ticks that find the last one more than a third of its hold time old. */
  lemma {:induction false} RunSendsKeepalives(cfg: NodeConfig, s: BusState, inputs: seq<Input>, name: string, hold: int)
    requires WellFormed(cfg.name, s.table) && hold > 0 && KeptUp(cfg, s, inputs, name, hold)
    ensures KeepaliveTimes(cfg, s, inputs, name) == SendTimes(LastSent(s.sent, name), hold, TickTimes(inputs))
    decreases inputs
  {
    if |inputs| > 0 {
      var i, rest := inputs[0], inputs[1..];
      var next := Dispatched(cfg, s, i.action, i.clock, i.up).state;
      DispatchKeepsWellFormed(cfg, s, i.action, i.clock, i.up);
      StepSendsKeepalive(cfg, s, i, name, hold);
      RunSendsKeepalives(cfg, next, rest, name, hold);
      assert KeepaliveTimes(cfg, s, inputs, name) == KeepaliveNow(cfg, s, i, name) + KeepaliveTimes(cfg, next, rest, name);
      if i.action.Tick? {
        SendTimesCons(LastSent(s.sent, name), hold, i.action.now, TickTimes(rest));
        assert TickTimes(inputs) == [i.action.now] + TickTimes(rest);
      } else {
        assert TickTimes(inputs) == TickTimes(rest);
      }
    }
  }

  lemma {:induction false} SendsComeAfter(last: int, since: int, hold: int, ticks: seq<int>)
    requires Steady(since, hold, ticks) && |SendTimes(last, hold, ticks)| > 0
    ensures SendTimes(last, hold, ticks)[0] >= since
    decreases ticks
  {
    if 3 * (ticks[0] - last) <= hold {
      SteadyRest(since, hold, ticks);
      SendsComeAfter(last, ticks[0], hold, ticks[1..]);
    }
  }

  lemma SteadyRest(since: int, hold: int, ticks: seq<int>)
    requires Steady(since, hold, ticks) && |ticks| > 0
    ensures Steady(ticks[0], hold, ticks[1..])
  {
    var rest := ticks[1..];
    forall i | 0 <= i < |rest| - 1 ensures 0 <= 3 * (rest[i + 1] - rest[i]) <= hold {
      assert rest[i] == ticks[i + 1] && rest[i + 1] == ticks[(i + 1) + 1];
    }
    if |rest| > 0 {
      assert rest[0] == ticks[0 + 1];
    }
  }

  function LastOf(since: int, times: seq<int>): int { if |times| == 0 then since else times[|times| - 1] }

  /** The keepalives of a session that begins at `since`: none of them more than two thirds of the hold time after the one
      before it, the first counted from the beginning; from the last to the end of the ticks at most a third. If a keepalive
      went out in the last third before the beginning, the first is counted from it; if not, it comes within a third. */
  ghost predicate Timely(last: int, since: int, hold: int, sends: seq<int>, end: int) {
    var all := [since] + sends;
    && (forall i :: 0 <= i < |all| - 1 ==> 0 <= 3 * (all[i + 1] - all[i]) <= 2 * hold)
    && 3 * (end - LastOf(since, sends)) <= hold
    && (!Recent(last, since, hold) && |sends| > 0 ==> 3 * (sends[0] - since) <= hold)
    && (Recent(last, since, hold) && |sends| > 0 ==> 3 * (sends[0] - last) <= 2 * hold)
    && (Recent(last, since, hold) ==> 3 * (end - LastOf(last, sends)) <= hold)
  }

  predicate Recent(last: int, since: int, hold: int) { 3 * (since - last) <= hold }

  /** The first tick sends. */
  lemma GapsAtOnce(last: int, since: int, hold: int, ticks: seq<int>)
    requires hold > 0 && last <= since && Steady(since, hold, ticks) && |ticks| > 0 && 3 * (ticks[0] - last) > hold
    ensures Timely(last, since, hold, SendTimes(last, hold, ticks), LastOf(since, ticks))
  {
    var sends := SendTimes(last, hold, ticks);
    var all := [since] + sends;
    SteadyRest(since, hold, ticks);
    GapsAreShort(ticks[0], ticks[0], hold, ticks[1..]);
    assert sends == [ticks[0]] + SendTimes(ticks[0], hold, ticks[1..]);
    forall i | 0 <= i < |all| - 1 ensures 0 <= 3 * (all[i + 1] - all[i]) <= 2 * hold {
      assert i > 0 ==> all[i] == sends[i - 1];
      assert all[i + 1] == sends[i];
    }
    if |ticks| > 1 {
      assert ticks[1..][|ticks| - 2] == ticks[|ticks| - 1];
    }
  }

  /** A recent keepalive makes it wait. */
  lemma GapsAfterRecent(last: int, since: int, hold: int, ticks: seq<int>)
    requires hold > 0 && last <= since && Steady(since, hold, ticks) && |ticks| > 0 && 3 * (ticks[0] - last) <= hold
    ensures Timely(last, since, hold, SendTimes(last, hold, ticks), LastOf(since, ticks))
  {
    var sends := SendTimes(last, hold, ticks);
    var all, prior := [since] + sends, [last] + sends;
    GapsAreShort(last, since, hold, ticks);
    if |sends| > 0 {
      SendsComeAfter(last, since, hold, ticks);
      assert prior[1] == sends[0] && 0 <= 3 * (prior[0 + 1] - prior[0]) <= 2 * hold;
    }
    forall i | 0 <= i < |all| - 1 ensures 0 <= 3 * (all[i + 1] - all[i]) <= 2 * hold {
      assert prior[i + 1] == all[i + 1] && (i > 0 ==> prior[i] == all[i]);
      assert 0 <= 3 * (prior[i + 1] - prior[i]) <= 2 * hold;
    }
    assert prior[|prior| - 1] == LastOf(last, sends);
  }

  /** However long ago the last keepalive was, or if there never was one. */
  lemma GapsSince(last: int, since: int, hold: int, ticks: seq<int>)
    requires hold > 0 && last <= since && Steady(since, hold, ticks)
    ensures Timely(last, since, hold, SendTimes(last, hold, ticks), LastOf(since, ticks))
  {
    if |ticks| > 0 {
      if 3 * (ticks[0] - last) > hold {
        GapsAtOnce(last, since, hold, ticks);
      } else {
        GapsAfterRecent(last, since, hold, ticks);
      }
    }
  }

  /** With ticks at most a third of the hold time apart, the keepalives a run sends to a peer that stays connected come in
      time, whether or not one was ever sent before. */
  lemma KeepalivesAreTimely(cfg: NodeConfig, s: BusState, inputs: seq<Input>, name: string, hold: int, since: int)
    requires WellFormed(cfg.name, s.table) && hold > 0 && KeptUp(cfg, s, inputs, name, hold)
    requires Steady(since, hold, TickTimes(inputs)) && LastSent(s.sent, name) <= since
    ensures Timely(LastSent(s.sent, name), since, hold, KeepaliveTimes(cfg, s, inputs, name), LastOf(since, TickTimes(inputs)))
  {
    RunSendsKeepalives(cfg, s, inputs, name, hold);
    GapsSince(LastSent(s.sent, name), since, hold, TickTimes(inputs));
  }
}
