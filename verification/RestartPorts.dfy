/** The ports of a restarted node: its table comes back with ports, its allocator starts afresh. */
module RestartPorts {
  import opened KeyedLists
  import opened RouteTypes
  import opened Rib
  import opened RibTheorems
  import opened PortAllocator
  import opened BusSpec
  import opened PortDraws

  /** Two channels of the list have the same port. */
  ghost predicate SharePort(chs: seq<DataChannel>) {
    exists i, j :: SharePortAt(chs, i, j)
  }

  predicate SharePortAt(chs: seq<DataChannel>, i: int, j: int) {
    0 <= i < j < |chs| && Ported(chs[i]) && Ported(chs[j]) && chs[i].envoyPort == chs[j].envoyPort
  }

  predicate CarriesPort(chs: seq<DataChannel>, port: int) {
    exists ch :: ch in chs && Ported(ch) && ch.envoyPort == Some(port)
  }

  /** One of the first ports of the queue, as many as there are channels without a port, is carried by a channel. */
  ghost predicate DrawsCarriedPort(chs: seq<DataChannel>, free: seq<int>) {
    exists d :: 0 <= d < |LocalRequests(chs)| && d < |free| && CarriesPort(chs, free[d])
  }

  function Stamped(ch: DataChannel, free: seq<int>, place: nat): DataChannel {
    if !Ported(ch) && place < |free| then ch.(envoyPort := Some(free[place])) else ch
  }

  // -------------------------------------------------------------------------
  // What stamping draws
  // -------------------------------------------------------------------------

  lemma {:induction false} RequestsAppend(xs: seq<DataChannel>, ys: seq<DataChannel>)
    ensures LocalRequests(xs + ys) == LocalRequests(xs) + LocalRequests(ys)
  {
    if |xs| == 0 {
      assert xs + ys == ys;
    } else {
      assert (xs + ys)[1..] == xs[1..] + ys;
      RequestsAppend(xs[1..], ys);
    }
  }

  /** How many channels before place `i` draw a port. */
  function Place(chs: seq<DataChannel>, i: nat): nat
    requires i <= |chs|
  {
    |LocalRequests(chs[..i])|
  }

  lemma PlaceNext(chs: seq<DataChannel>, i: nat)
    requires i < |chs|
    ensures Place(chs, i + 1) == Place(chs, i) + if Ported(chs[i]) then 0 else 1
    ensures Place(chs, |chs|) == |LocalRequests(chs)|
  {
    assert chs[..i + 1] == chs[..i] + [chs[i]] && chs[..|chs|] == chs;
    RequestsAppend(chs[..i], [chs[i]]);
    assert [chs[i]][1..] == [];
  }

  lemma {:induction false} PlaceGrows(chs: seq<DataChannel>, i: nat, j: nat)
    requires i <= j <= |chs|
    ensures Place(chs, i) <= Place(chs, j)
  {
    if i < j {
      PlaceNext(chs, j - 1);
      PlaceGrows(chs, i, j - 1);
    }
  }

  /** The place of a draw, found again. */
  lemma {:induction false} PlaceFound(chs: seq<DataChannel>, d: nat, n: nat) returns (i: nat)
    requires n <= |chs| && d < Place(chs, n)
    ensures i < n && !Ported(chs[i]) && Place(chs, i) == d
  {
    PlaceNext(chs, n - 1);
    if d == Place(chs, n - 1) {
      i := n - 1;
    } else {
      i := PlaceFound(chs, d, n - 1);
    }
  }

  /** Part of the channels stamped: the ports are drawn in order. */
  ghost predicate StampedSoFar(chs: seq<DataChannel>, free: seq<int>, n: nat, s: LocalStamp) {
    && n <= |chs| && |s.channels| == n && (forall i :: 0 <= i < n ==> s.channels[i] == Stamped(chs[i], free, Place(chs, i)))
    && s.ports.pool.free == free[if Place(chs, n) <= |free| then Place(chs, n) else |free|..]
    && forall i :: n <= i < |chs| && !Ported(chs[i]) ==> chs[i].name !in s.ports.pool.taken
  }

  lemma StampNext(chs: seq<DataChannel>, free: seq<int>, n: nat, s: LocalStamp)
    requires StampedSoFar(chs, free, n, s) && n < |chs| && Unique(ChannelName, chs)
    ensures StampedSoFar(chs, free, n + 1, StampLocal(chs[n], s))
  {
    PlaceNext(chs, n);
    assert forall i :: n < i < |chs| ==> ChannelName(chs[n]) != ChannelName(chs[i]);
  }

  lemma {:induction false} StampAll(chs: seq<DataChannel>, free: seq<int>, n: nat, s: LocalStamp)
    requires StampedSoFar(chs, free, n, s) && Unique(ChannelName, chs)
    ensures StampedSoFar(chs, free, |chs|, StampLocals(chs[n..], s))
    decreases |chs| - n
  {
    if n < |chs| {
      StampNext(chs, free, n, s);
      assert chs[n..][1..] == chs[n + 1..];
      StampAll(chs, free, n + 1, StampLocal(chs[n], s));
    }
  }

  // -------------------------------------------------------------------------
  // A fresh allocator has nothing to release
  // -------------------------------------------------------------------------

  lemma {:induction false} NothingFreed(p: Ports, cs: seq<RouteChange>)
    requires p.pool.taken == map[]
    ensures FreeChanges(p, cs).pool == p.pool
    decreases cs
  {
    if |cs| > 0 {
      NothingFreed(FreeChange(p, cs[0]), cs[1..]);
    }
  }

  lemma {:induction false} NothingHonoured(p: Ports, ops: seq<PortOp>)
    requires p.pool.taken == map[]
    ensures Honour(p, ops).pool == p.pool
    decreases ops
  {
    if |ops| > 0 {
      NothingHonoured(if ops[0].Released? then Ports(Release(p.pool, ops[0].key), p.ops + [ops[0]]) else p, ops[1..]);
    }
  }

  lemma FreshIsFreed(plan: PlanResult, pool: Pool)
    requires pool.taken == map[]
    ensures Freed(plan, pool).pool == pool
  {
    NothingFreed(Ports(pool, []), plan.changes);
    NothingHonoured(FreeChanges(Ports(pool, []), plan.changes), plan.portOps);
  }

  /** The channels after a dispatch on a fresh allocator. */
  lemma FreshStamps(plan: PlanResult, pool: Pool)
    requires pool.taken == map[] && Unique(ChannelName, plan.next.local)
    ensures var chs, out := plan.next.local, WithPorts(plan, pool).next.local;
            |out| == |chs| && forall i :: 0 <= i < |chs| ==> out[i] == Stamped(chs[i], pool.free, Place(chs, i))
  {
    var s0 := LocalStamp([], Freed(plan, pool), map[]);
    FreshIsFreed(plan, pool);
    assert plan.next.local[..0] == [] && pool.free[0..] == pool.free && plan.next.local[0..] == plan.next.local;
    StampAll(plan.next.local, pool.free, 0, s0);
  }

  // -------------------------------------------------------------------------
  // Exactly when a port is handed out twice
  // -------------------------------------------------------------------------

  lemma SharedIsCarried(chs: seq<DataChannel>, free: seq<int>, out: seq<DataChannel>, i: nat, j: nat)
    requires |out| == |chs| && forall i :: 0 <= i < |chs| ==> out[i] == Stamped(chs[i], free, Place(chs, i))
    requires !SharePort(chs) && (forall c, d :: 0 <= c < d < |free| ==> free[c] != free[d]) && SharePortAt(out, i, j)
    ensures DrawsCarriedPort(chs, free)
  {
    PlaceNext(chs, i);
    PlaceGrows(chs, i + 1, j);
    PlaceNext(chs, j);
    PlaceGrows(chs, j + 1, |chs|);
    if Ported(chs[i]) {
      assert !SharePortAt(chs, i, j);
      assert chs[i] in chs && CarriesPort(chs, free[Place(chs, j)]);
    } else if Ported(chs[j]) {
      assert chs[j] in chs && CarriesPort(chs, free[Place(chs, i)]);
    }
  }

  lemma CarriedIsShared(chs: seq<DataChannel>, free: seq<int>, out: seq<DataChannel>)
    requires |out| == |chs| && forall i :: 0 <= i < |chs| ==> out[i] == Stamped(chs[i], free, Place(chs, i))
    requires DrawsCarriedPort(chs, free)
    ensures SharePort(out)
  {
    var d :| 0 <= d < |LocalRequests(chs)| && d < |free| && CarriesPort(chs, free[d]);
    assert chs[..|chs|] == chs;
    var i := PlaceFound(chs, d, |chs|);
    var ch :| ch in chs && Ported(ch) && ch.envoyPort == Some(free[d]);
    var j :| 0 <= j < |chs| && chs[j] == ch;
    assert SharePortAt(out, i, j) || SharePortAt(out, j, i);
  }

  /** Any action on a restarted node, ports apart so far: two channels then share a port exactly when one of the first free
      ports, as many as there are channels to serve, is carried by a channel already. */
  lemma FirstDispatchSharesIff(self: string, a: Action, t: RouteTable, clock: int, entries: seq<PortEntry>)
    requires WellFormed(self, t) && !SharePort(Planned(self, a, t, clock).next.local)
    ensures var plan, pool := Planned(self, a, t, clock), Created(entries, []);
            SharePort(WithPorts(plan, pool).next.local) <==> DrawsCarriedPort(plan.next.local, pool.free)
  {
    var plan, pool := Planned(self, a, t, clock), Created(entries, []);
    var chs, out := plan.next.local, WithPorts(plan, pool).next.local;
    PlanKeepsWellFormed(self, a, t, clock);
    CreatedPartitions(entries, []);
    FreshStamps(plan, pool);
    if SharePort(out) {
      var i, j :| SharePortAt(out, i, j);
      SharedIsCarried(chs, pool.free, out, i, j);
    }
    if DrawsCarriedPort(chs, pool.free) {
      CarriedIsShared(chs, pool.free, out);
    }
  }

  /** In particular creating a channel, in terms of the recovered table and the new channel alone. */
  lemma CreateAfterRestartSharesIff(cfg: NodeConfig, t: RouteTable, ch: DataChannel, clock: int, up: set<string>, entries: seq<PortEntry>, sent: map<string, int>)
    requires WellFormed(cfg.name, t) && Find(ChannelName, t.local, ch.name).None? && !SharePort(t.local + [ch])
    ensures var pool := Created(entries, []);
            var o := Dispatched(cfg, BusState(t, Some(pool), sent), LocalRouteCreate(ch), clock, up);
            o.result.Success? && (SharePort(o.state.table.local) <==> DrawsCarriedPort(t.local + [ch], pool.free))
  {
    FirstDispatchSharesIff(cfg.name, LocalRouteCreate(ch), t, clock, entries);
  }
}
