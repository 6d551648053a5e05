/** Both ends of a session: the keepalives one node sends keep its session at the other from expiring. */
module SessionLiveness {
  import opened RouteTypes
  import opened RibTheorems
  import opened Runs
  import opened GracefulRestart
  import opened Sessions
  import opened BusSpec
  import opened PortAgreement
  import opened Keepalive

  predicate KeepaliveAt(x: Timed, name: string, at: int) {
    x.action.InternalProtocolKeepalive? && x.action.info.name == name && x.clock == at
  }

  /** The keepalives that keep a session up: those sent since it began, and one sent in the last third before. */
  function Out(last: int, since: int, hold: int, sends: seq<int>): seq<int> {
    if Recent(last, since, hold) then [last] + sends else sends
  }

  /** Each keepalive of `outs` arrives after its own delay of less than a third of the hold time, unless the receiver has
      heard the peer since it was sent. */
  ghost predicate Arrive(acts: seq<Timed>, name: string, heard: int, outs: seq<int>, delays: seq<int>, hold: int) {
    && |delays| == |outs|
    && (forall j :: 0 <= j < |outs| ==> 0 <= 3 * delays[j] < hold)
    && (forall j :: 0 <= j < |outs| ==> heard >= outs[j] || exists i :: 0 <= i < |acts| && KeepaliveAt(acts[i], name, outs[j] + delays[j]))
  }

  /** The receiver works through its actions in the order of its clock, and no tick is dated after it is handled. */
  ghost predicate InClockOrder(acts: seq<Timed>, since: int) {
    && (forall i :: 0 <= i < |acts| ==> acts[i].clock >= since && (acts[i].action.Tick? ==> acts[i].action.now <= acts[i].clock))
    && (forall i, j :: 0 <= i < j < |acts| ==> acts[i].clock <= acts[j].clock)
  }

  lemma ClockOrderRest(acts: seq<Timed>, since: int)
    requires InClockOrder(acts, since) && |acts| > 0
    ensures InClockOrder(acts[1..], since) && InClockOrder(acts[1..], acts[0].clock)
  {
    var rest := acts[1..];
    assert forall i :: 0 <= i < |rest| ==> rest[i] == acts[i + 1];
  }

  /** The last message heard is no older than any message. */
  lemma {:induction false} HeardSince(acts: seq<Timed>, name: string, since: int, m: int)
    requires InClockOrder(acts, since)
    requires -1 <= m < |acts| && (m >= 0 ==> From(acts[m].action, name))
    ensures HeardAt(acts, name, since) >= if m >= 0 then acts[m].clock else since
    decreases acts
  {
    if |acts| > 0 {
      ClockOrderRest(acts, since);
      var since' := if From(acts[0].action, name) then acts[0].clock else since;
      HeardSince(acts[1..], name, since', if m > 0 then m - 1 else -1);
    }
  }

  lemma {:induction false} HeardInTimeIf(acts: seq<Timed>, name: string, since: int, hold: int)
    requires forall i :: 0 <= i < |acts| && acts[i].action.Tick? ==> acts[i].action.now - HeardAt(acts[..i], name, since) <= hold
    ensures HeardInTime(acts, name, since, hold)
    decreases acts
  {
    if |acts| > 0 {
      var since', rest := if From(acts[0].action, name) then acts[0].clock else since, acts[1..];
      assert acts[..0] == [];
      forall i | 0 <= i < |rest| && rest[i].action.Tick? ensures rest[i].action.now - HeardAt(rest[..i], name, since') <= hold {
        assert acts[..i + 1][1..] == rest[..i] && acts[..i + 1][0] == acts[0];
        assert acts[i + 1].action.Tick?;
      }
      HeardInTimeIf(rest, name, since', hold);
    }
  }

  /** The last keepalive that arrived before `now`, or -1. */
  lemma {:induction false} LatestBefore(sends: seq<int>, delays: seq<int>, now: int, n: nat) returns (j: int)
    requires |delays| == |sends| && n <= |sends|
    ensures -1 <= j < n && (j >= 0 ==> sends[j] + delays[j] < now)
    ensures forall i :: j < i < n ==> sends[i] + delays[i] >= now
  {
    if n == 0 {
      j := -1;
    } else if sends[n - 1] + delays[n - 1] < now {
      j := n - 1;
    } else {
      j := LatestBefore(sends, delays, now, n - 1);
    }
  }

  /** When the receiver last heard the peer: at most two thirds of the hold time before a recent keepalive went out, or,
      without one, at most a third before the sender counts the session as begun. */
  predicate BeginsTogether(last: int, since: int, hold: int, heard: int) {
    if Recent(last, since, hold) then 3 * (last - heard) <= 2 * hold else 3 * (since - heard) <= hold
  }

  /** Some keepalive that arrived before `now` was sent at most the hold time earlier, or the peer was heard since then. */
  lemma ArrivedInTime(last: int, since: int, hold: int, sends: seq<int>, end: int, delays: seq<int>, heard: int, now: int) returns (j: int)
    requires hold > 0 && Timely(last, since, hold, sends, end) && BeginsTogether(last, since, hold, heard)
    requires var outs := Out(last, since, hold, sends);
             |delays| == |outs| && forall j :: 0 <= j < |outs| ==> 0 <= 3 * delays[j] < hold
    requires 3 * (now - end) <= hold
    ensures var outs := Out(last, since, hold, sends);
            && -1 <= j < |outs| && (j >= 0 ==> outs[j] + delays[j] < now)
            && now - (if j >= 0 then outs[j] else heard) <= hold
  {
    var outs, all := Out(last, since, hold, sends), [since] + sends;
    j := LatestBefore(outs, delays, now, |outs|);
    assert forall i :: 0 <= i < |sends| ==> all[i + 1] == sends[i];
    if j < |outs| - 1 {
      assert outs[j + 1] + delays[j + 1] >= now;
      var m := if Recent(last, since, hold) then j else j + 1;
      assert m > 0 ==> outs[j + 1] == all[m + 1] && outs[j] == all[m] && 0 <= 3 * (all[m + 1] - all[m]) <= 2 * hold;
    }
  }

  lemma TickInTime(acts: seq<Timed>, name: string, hold: int, heard: int, last: int, since: int, sends: seq<int>, end: int, delays: seq<int>, i: nat)
    requires hold > 0 && Timely(last, since, hold, sends, end) && BeginsTogether(last, since, hold, heard)
    requires InClockOrder(acts, heard) && Arrive(acts, name, heard, Out(last, since, hold, sends), delays, hold)
    requires i < |acts| && acts[i].action.Tick? && 3 * (acts[i].action.now - end) <= hold
    ensures acts[i].action.now - HeardAt(acts[..i], name, heard) <= hold
  {
    var now, before, outs := acts[i].action.now, acts[..i], Out(last, since, hold, sends);
    assert InClockOrder(before, heard);
    var j := ArrivedInTime(last, since, hold, sends, end, delays, heard, now);
    if j >= 0 && heard < outs[j] {
      var m :| 0 <= m < |acts| && KeepaliveAt(acts[m], name, outs[j] + delays[j]);
      assert m < i;
      HeardSince(before, name, heard, m);
    } else {
      HeardSince(before, name, heard, -1);
    }
  }

  /** The two ends of a session. The sender's run keeps the peer connected with hold time `hold`, its sends succeed and its
      ticks are at most a third of it apart; each keepalive reaches the receiver after less than a third; the
      receiver has the same hold time, takes its actions in clock order and ticks whenever it likes, up to a third of the
      hold time after the sender's last tick. Then every tick finds the sender heard in time, and the session stays up. */
  lemma SessionNeverExpires(cfg: NodeConfig, s: BusState, inputs: seq<Input>, since: int,
                            self: string, t: RouteTable, p: PeerRecord, acts: seq<Timed>, delays: seq<int>)
    requires WellFormed(cfg.name, s.table) && p.holdTime > 0 && KeptUp(cfg, s, inputs, self, p.holdTime)
    requires Steady(since, p.holdTime, TickTimes(inputs)) && LastSent(s.sent, self) <= since
    requires WellFormed(self, t) && p in t.peers && PeerName(p) == cfg.name && p.status == Connected
    requires BeginsTogether(LastSent(s.sent, self), since, p.holdTime, p.lastReceived)
    requires InClockOrder(acts, p.lastReceived) && forall i :: 0 <= i < |acts| ==> LeavesSession(acts[i].action, cfg.name)
    requires Arrive(acts, cfg.name, p.lastReceived, Out(LastSent(s.sent, self), since, p.holdTime, KeepaliveTimes(cfg, s, inputs, self)), delays, p.holdTime)
    requires forall i :: 0 <= i < |acts| && acts[i].action.Tick? ==> 3 * (acts[i].action.now - LastOf(since, TickTimes(inputs))) <= p.holdTime
    ensures HeardInTime(acts, cfg.name, p.lastReceived, p.holdTime)
    ensures exists q :: q in Replay(self, acts, t).peers && PeerName(q) == cfg.name && q.status == Connected
  {
    var sends, end, last := KeepaliveTimes(cfg, s, inputs, self), LastOf(since, TickTimes(inputs)), LastSent(s.sent, self);
    KeepalivesAreTimely(cfg, s, inputs, self, p.holdTime, since);
    forall i | 0 <= i < |acts| && acts[i].action.Tick?
      ensures acts[i].action.now - HeardAt(acts[..i], cfg.name, p.lastReceived) <= p.holdTime
    {
      TickInTime(acts, cfg.name, p.holdTime, p.lastReceived, last, since, sends, end, delays, i);
    }
    HeardInTimeIf(acts, cfg.name, p.lastReceived, p.holdTime);
    SessionStaysUp(self, acts, t, p);
  }
}
