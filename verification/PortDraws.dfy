/** Which port a key gets from a dispatch, told from the pool and the plan before any allocation. */
module PortDraws {
  import opened KeyedLists
  import opened RouteTypes
  import opened Rib
  import opened PortAllocator
  import opened BusSpec
  import opened PortAgreement

  function AllocateAll(pool: Pool, keys: seq<string>): Pool
    decreases keys
  {
    if |keys| == 0 then pool else AllocateAll(Allocate(pool, keys[0]), keys[1..])
  }

  /** The keys that need a new port, once each, in the order they first ask. */
  function NewKeys(keys: seq<string>, taken: set<string>): seq<string>
    decreases keys
  {
    if |keys| == 0 then []
    else if keys[0] in taken then NewKeys(keys[1..], taken)
    else [keys[0]] + NewKeys(keys[1..], taken + {keys[0]})
  }

  /** The place of `k`, or -1. */
  function Position(ks: seq<string>, k: string): (i: int)
    ensures -1 <= i < |ks| && (i >= 0 ==> ks[i] == k)
  {
    if |ks| == 0 then -1
    else if ks[0] == k then 0
    else
      var i := Position(ks[1..], k);
      if i < 0 then -1 else i + 1
  }

  /** The port at a place of the queue, if the queue is that long. */
  function At(free: seq<int>, i: int): Option<int> { if 0 <= i < |free| then Some(free[i]) else None }

  /** A key that has a port keeps it; the j-th new key draws the j-th free port. */
  lemma {:induction false} DrawsInOrder(pool: Pool, keys: seq<string>, k: string)
    ensures PortOf(AllocateAll(pool, keys), k) ==
            if k in pool.taken then Some(pool.taken[k]) else At(pool.free, Position(NewKeys(keys, pool.taken.Keys), k))
    decreases keys
  {
    if |keys| > 0 {
      var first, rest, pool' := keys[0], keys[1..], Allocate(pool, keys[0]);
      DrawsInOrder(pool', rest, k);
      if first !in pool.taken {
        var news := NewKeys(rest, pool.taken.Keys + {first});
        assert ([first] + news)[1..] == news;
        if |pool.free| > 0 {
          assert pool'.taken.Keys == pool.taken.Keys + {first};
        }
      }
    }
  }

  lemma {:induction false} AllocateAppend(pool: Pool, ks: seq<string>, ls: seq<string>)
    ensures AllocateAll(pool, ks + ls) == AllocateAll(AllocateAll(pool, ks), ls)
    decreases ks
  {
    if |ks| == 0 {
      assert ks + ls == ls;
    } else {
      assert (ks + ls)[1..] == ks[1..] + ls;
      AllocateAppend(Allocate(pool, ks[0]), ks[1..], ls);
    }
  }

  function LocalRequests(chs: seq<DataChannel>): seq<string> {
    if |chs| == 0 then [] else (if Ported(chs[0]) then [] else [chs[0].name]) + LocalRequests(chs[1..])
  }

  function EgressRequests(rs: seq<InternalRoute>): seq<string> {
    if |rs| == 0 then [] else [EgressKeyOf(rs[0])] + EgressRequests(rs[1..])
  }

  /** The keys a table asks ports for: unported channels by name, then learned routes by egress key. */
  function Requests(t: RouteTable): seq<string> { LocalRequests(t.local) + EgressRequests(t.internal) }

  lemma {:induction false} LocalsDraw(chs: seq<DataChannel>, s: LocalStamp)
    ensures StampLocals(chs, s).ports.pool == AllocateAll(s.ports.pool, LocalRequests(chs))
    decreases chs
  {
    if |chs| > 0 {
      LocalsDraw(chs[1..], StampLocal(chs[0], s));
      var own := if Ported(chs[0]) then [] else [chs[0].name];
      AllocateAppend(s.ports.pool, own, LocalRequests(chs[1..]));
      assert !Ported(chs[0]) ==> own[1..] == [];
      assert AllocateAll(s.ports.pool, own) == StampLocal(chs[0], s).ports.pool;
    }
  }

  lemma {:induction false} EgressDraws(rs: seq<InternalRoute>, s: EgressStamp)
    ensures StampEgresses(rs, s).ports.pool == AllocateAll(s.ports.pool, EgressRequests(rs))
    decreases rs
  {
    if |rs| > 0 {
      EgressDraws(rs[1..], StampEgress(rs[0], s));
      assert ([EgressKeyOf(rs[0])] + EgressRequests(rs[1..]))[1..] == EgressRequests(rs[1..]);
    }
  }

  lemma PoolAfterDraws(plan: PlanResult, pool: Pool)
    ensures PoolAfter(plan, pool) == AllocateAll(Freed(plan, pool).pool, Requests(plan.next))
  {
    LocalsDraw(plan.next.local, LocalStamp([], Freed(plan, pool), map[]));
    EgressDraws(plan.next.internal, EgressStamp([], StampedLocals(plan, pool).ports, map[]));
    AllocateAppend(Freed(plan, pool).pool, LocalRequests(plan.next.local), EgressRequests(plan.next.internal));
  }

  // -------------------------------------------------------------------------
  // Releases only lengthen the queue
  // -------------------------------------------------------------------------

  lemma {:induction false} FreeChangesLengthen(p: Ports, cs: seq<RouteChange>)
    ensures p.pool.free <= FreeChanges(p, cs).pool.free
    decreases cs
  {
    if |cs| > 0 {
      FreeChangesLengthen(FreeChange(p, cs[0]), cs[1..]);
    }
  }

  lemma {:induction false} HonourLengthens(p: Ports, ops: seq<PortOp>)
    ensures p.pool.free <= Honour(p, ops).pool.free
    decreases ops
  {
    if |ops| > 0 {
      HonourLengthens(if ops[0].Released? then Ports(Release(p.pool, ops[0].key), p.ops + [ops[0]]) else p, ops[1..]);
    }
  }

  /** The queue new keys draw from starts with the ports free before the dispatch; released ports come after them. */
  lemma QueueBefore(plan: PlanResult, pool: Pool)
    ensures pool.free <= Freed(plan, pool).pool.free
  {
    FreeChangesLengthen(Ports(pool, []), plan.changes);
    HonourLengthens(FreeChanges(Ports(pool, []), plan.changes), plan.portOps);
  }

  // -------------------------------------------------------------------------
  // One dispatch
  // -------------------------------------------------------------------------

  predicate Removes(cs: seq<RouteChange>, key: string) {
    exists c :: c in cs && Touches(c, key)
  }

  /** The port `key` will have: its own if it holds one and no removal touches it, else the free port at its place among
      the new keys, if there are that many. */
  function Drawn(plan: PlanResult, pool: Pool, key: string): Option<int> {
    if key in pool.taken && !Removes(plan.changes, key) then Some(pool.taken[key])
    else
      var freed := Freed(plan, pool).pool;
      At(freed.free, Position(NewKeys(Requests(plan.next), freed.taken.Keys), key))
  }

  lemma PortIsDrawn(self: string, a: Action, t: RouteTable, clock: int, pool: Pool, ports: set<int>, key: string)
    requires Partitions(pool, ports)
    ensures var plan := Planned(self, a, t, clock); PortOf(PoolAfter(plan, pool), key) == Drawn(plan, pool, key)
  {
    var plan := Planned(self, a, t, clock);
    var p0 := Ports(pool, []);
    PoolAfterDraws(plan, pool);
    DrawsInOrder(Freed(plan, pool).pool, Requests(plan.next), key);
    if Removes(plan.changes, key) {
      var c :| c in plan.changes && Touches(c, key);
      TouchedIsFreed(p0, plan.changes, c, key);
      HonourStaysFreed(FreeChanges(p0, plan.changes), plan.portOps, key);
    } else {
      PlanOpsNamed(self, a, t, clock);
      FreeChangesFacts(p0, plan.changes, key, ports);
      HonourFacts(FreeChanges(p0, plan.changes), plan.portOps, key, ports);
    }
  }
}
