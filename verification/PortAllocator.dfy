/** The port allocator: an insertion-ordered pool of free ports and the ports in use by key. */
module PortAllocator {
  import opened KeyedLists

  datatype PortEntry = Single(port: int) | Range(first: int, last: int)

  predicate Covers(e: PortEntry, port: int) {
    match e
    case Single(p) => port == p
    case Range(first, last) => first <= port <= last
  }

  function Upto(first: int, last: int): (r: seq<int>)
    ensures forall p :: p in r <==> first <= p <= last
    ensures forall i :: 0 <= i < |r| ==> r[i] == first + i
    decreases last - first
  {
    if first > last then [] else [first] + Upto(first + 1, last)
  }

  function EntryPorts(e: PortEntry): (r: seq<int>)
    ensures forall p :: p in r <==> Covers(e, p)
    ensures forall i, j :: 0 <= i < j < |r| ==> r[i] < r[j]
  {
    match e
    case Single(p) => [p]
    case Range(first, last) => Upto(first, last)
  }

  /** The configured ports, in configuration order. */
  function Expand(entries: seq<PortEntry>): (r: seq<int>)
    ensures forall p :: p in r <==> exists e :: e in entries && Covers(e, p)
  {
    if |entries| == 0 then [] else EntryPorts(entries[0]) + Expand(entries[1..])
  }

  lemma {:induction false} ExpandSnoc(entries: seq<PortEntry>, e: PortEntry)
    ensures Expand(entries + [e]) == Expand(entries) + EntryPorts(e)
  {
    if |entries| == 0 {
      assert entries + [e] == [e] && [e][1..] == [];
    } else {
      assert (entries + [e])[1..] == entries[1..] + [e];
      ExpandSnoc(entries[1..], e);
    }
  }

  method ExpandPortRange(entries: seq<PortEntry>) returns (ports: seq<int>)
    ensures ports == Expand(entries)
  {
    ports := [];
    for i := 0 to |entries|
      invariant ports == Expand(entries[..i])
    {
      ghost var before := ports;
      match entries[i] {
        case Single(p) => ports := ports + [p];
        case Range(first, last) =>
          var p := first;
          while p <= last
            invariant ports + Upto(p, last) == before + Upto(first, last)
            decreases last - p
          {
            assert ports + [p] + Upto(p + 1, last) == ports + Upto(p, last);
            ports, p := ports + [p], p + 1;
          }
          assert ports + [] == ports;
      }
      ExpandSnoc(entries[..i], entries[i]);
      assert entries[..i + 1] == entries[..i] + [entries[i]];
    }
    assert entries[..|entries|] == entries;
  }

  // -------------------------------------------------------------------------
  // The pool as a value
  // -------------------------------------------------------------------------

  datatype Pool = Pool(free: seq<int>, taken: map<string, int>)

  /** `Set.add`: a member already present keeps its place. */
  function AddTo(s: seq<int>, x: int): seq<int> { if x in s then s else s + [x] }

  function AddAll(s: seq<int>, xs: seq<int>): seq<int>
    decreases xs
  {
    if |xs| == 0 then s else AddAll(AddTo(s, xs[0]), xs[1..])
  }

  function Except(s: seq<int>, x: int): seq<int> {
    if |s| == 0 then [] else if s[0] == x then Except(s[1..], x) else [s[0]] + Except(s[1..], x)
  }

  function Allocate(pool: Pool, key: string): Pool {
    if key in pool.taken || |pool.free| == 0 then pool
    else Pool(pool.free[1..], pool.taken[key := pool.free[0]])
  }

  /** The port `key` has, if any. */
  function PortOf(pool: Pool, key: string): Option<int> {
    if key in pool.taken then Some(pool.taken[key]) else None
  }

  function Release(pool: Pool, key: string): Pool {
    if key !in pool.taken then pool
    else Pool(AddTo(pool.free, pool.taken[key]), pool.taken - {key})
  }

  /** Reserve one recorded allocation, if its port is still free. */
  function Reserve(pool: Pool, name: string, port: int): Pool {
    if port in pool.free then Pool(Except(pool.free, port), pool.taken[name := port]) else pool
  }

  function Rehydrate(pool: Pool, existing: seq<(string, int)>): Pool
    decreases existing
  {
    if |existing| == 0 then pool else Rehydrate(Reserve(pool, existing[0].0, existing[0].1), existing[1..])
  }

  /** Free and taken ports partition `ports`, no port is listed twice and no two keys share a port. */
  ghost predicate Partitions(pool: Pool, ports: set<int>) {
    && (forall i, j :: 0 <= i < j < |pool.free| ==> pool.free[i] != pool.free[j])
    && (forall k :: k in pool.taken ==> pool.taken[k] !in pool.free)
    && (forall k, l :: k in pool.taken && l in pool.taken && pool.taken[k] == pool.taken[l] ==> k == l)
    && (forall p :: p in ports <==> p in pool.free || exists k :: k in pool.taken && pool.taken[k] == p)
  }

  lemma AllocatePartitions(pool: Pool, key: string, ports: set<int>)
    requires Partitions(pool, ports)
    ensures Partitions(Allocate(pool, key), ports)
    ensures key !in pool.taken && PortOf(Allocate(pool, key), key).None? ==> pool.free == []
  {
    if key !in pool.taken && |pool.free| > 0 {
      var pool' := Allocate(pool, key);
      assert pool.free == [pool.free[0]] + pool'.free;
      forall p ensures p in ports <==> p in pool'.free || exists k :: k in pool'.taken && pool'.taken[k] == p {
        if p == pool.free[0] {
          assert pool'.taken[key] == p;
        } else if k :| k in pool.taken && pool.taken[k] == p {
          assert pool'.taken[k] == p;
        }
      }
    }
  }

  lemma ReleasePartitions(pool: Pool, key: string, ports: set<int>)
    requires Partitions(pool, ports)
    ensures Partitions(Release(pool, key), ports)
  {
    if key in pool.taken {
      var pool' := Release(pool, key);
      var freed := pool.taken[key];
      forall p ensures p in ports <==> p in pool'.free || exists k :: k in pool'.taken && pool'.taken[k] == p {
        if p != freed {
          if k :| k in pool.taken && pool.taken[k] == p {
            assert pool'.taken[k] == p;
          }
        }
      }
    }
  }

  lemma {:induction false} ExceptIs(s: seq<int>, x: int)
    requires forall i, j :: 0 <= i < j < |s| ==> s[i] != s[j]
    ensures forall y :: y in Except(s, x) <==> y in s && y != x
    ensures forall i, j :: 0 <= i < j < |Except(s, x)| ==> Except(s, x)[i] != Except(s, x)[j]
  {
    if |s| > 0 {
      var first, rest := s[0], Except(s[1..], x);
      ExceptIs(s[1..], x);
      assert s == [first] + s[1..];
      if first != x {
        assert first !in rest;
        forall i, j | 0 <= i < j < |[first] + rest| ensures ([first] + rest)[i] != ([first] + rest)[j] {
          assert ([first] + rest)[j] == rest[j - 1] && rest[j - 1] in rest;
          assert i > 0 ==> ([first] + rest)[i] == rest[i - 1];
        }
      }
    }
  }

  lemma ReservePartitions(pool: Pool, name: string, port: int, ports: set<int>)
    requires Partitions(pool, ports) && name !in pool.taken
    ensures Partitions(Reserve(pool, name, port), ports)
  {
    if port in pool.free {
      ExceptIs(pool.free, port);
      var pool' := Reserve(pool, name, port);
      forall p ensures p in ports <==> p in pool'.free || exists k :: k in pool'.taken && pool'.taken[k] == p {
        if p == port {
          assert pool'.taken[name] == p;
        } else if k :| k in pool.taken && pool.taken[k] == p {
          assert pool'.taken[k] == p;
        }
      }
    }
  }

  function NameOf(entry: (string, int)): string { entry.0 }

  /** Recorded allocations that are out of range or repeat a port are dropped; the pool stays a partition. */
  lemma {:induction false} RehydratePartitions(pool: Pool, existing: seq<(string, int)>, ports: set<int>)
    requires Partitions(pool, ports) && Unique(NameOf, existing)
    requires forall e :: e in existing ==> e.0 !in pool.taken
    ensures Partitions(Rehydrate(pool, existing), ports)
    decreases existing
  {
    if |existing| > 0 {
      var (name, port) := existing[0];
      assert existing[0] in existing;
      ReservePartitions(pool, name, port, ports);
      forall i, j | 0 <= i < j < |existing[1..]| ensures NameOf(existing[1..][i]) != NameOf(existing[1..][j]) {
        assert NameOf(existing[i + 1]) != NameOf(existing[j + 1]);
      }
      forall e | e in existing[1..] ensures e.0 !in Reserve(pool, name, port).taken {
        var i :| 0 <= i < |existing[1..]| && existing[1..][i] == e;
        assert NameOf(existing[0]) != NameOf(existing[i + 1]);
      }
      RehydratePartitions(Reserve(pool, name, port), existing[1..], ports);
    }
  }

  lemma {:induction false} AddAllIs(s: seq<int>, xs: seq<int>)
    requires forall i, j :: 0 <= i < j < |s| ==> s[i] != s[j]
    ensures forall i, j :: 0 <= i < j < |AddAll(s, xs)| ==> AddAll(s, xs)[i] != AddAll(s, xs)[j]
    ensures forall x :: x in AddAll(s, xs) <==> x in s || x in xs
    decreases xs
  {
    if |xs| > 0 {
      AddAllIs(AddTo(s, xs[0]), xs[1..]);
    }
  }

  /** What `createPortAllocator` builds. */
  function Created(entries: seq<PortEntry>, existing: seq<(string, int)>): Pool {
    Rehydrate(Pool(AddAll([], Expand(entries)), map[]), existing)
  }

  lemma CreatedPartitions(entries: seq<PortEntry>, existing: seq<(string, int)>)
    requires Unique(NameOf, existing)
    ensures Partitions(Created(entries, existing), set p | p in Expand(entries))
  {
    AddAllIs([], Expand(entries));
    RehydratePartitions(Pool(AddAll([], Expand(entries)), map[]), existing, set p | p in Expand(entries));
  }

  /** The record at place `i` is honoured: its port is among `free` and no earlier record claims it. */
  predicate Honoured(existing: seq<(string, int)>, i: int, free: seq<int>) {
    0 <= i < |existing| && existing[i].1 in free && forall j :: 0 <= j < i ==> existing[j].1 != existing[i].1
  }

  lemma HonouredLater(existing: seq<(string, int)>, i: int, free: seq<int>, free': seq<int>)
    requires |existing| > 0 && i > 0
    requires forall p: int :: p in free' <==> (p in free && p != existing[0].1)
    ensures Honoured(existing, i, free) <==> Honoured(existing[1..], i - 1, free')
  {
    if i < |existing| {
      var rest := existing[1..];
      assert rest[i - 1] == existing[i];
      if Honoured(existing, i, free) {
        assert existing[0].1 != existing[i].1;
        forall j | 0 <= j < i - 1 ensures rest[j].1 != rest[i - 1].1 {
          assert existing[j + 1].1 != existing[i].1;
        }
      }
      if Honoured(rest, i - 1, free') {
        var port := existing[i].1;
        assert port == rest[i - 1].1 && port in free';
        assert port in free && port != existing[0].1;
        forall j | 0 <= j < i ensures existing[j].1 != existing[i].1 {
          if j > 0 {
            assert rest[j - 1] == existing[j] && rest[j - 1].1 != rest[i - 1].1;
          }
        }
      }
    }
  }

  /** After re-hydration a name holds a port exactly when it did before or one of its records is honoured. */
  lemma {:induction false} RehydrateHolds(pool: Pool, existing: seq<(string, int)>, ports: set<int>)
    requires Partitions(pool, ports) && Unique(NameOf, existing) && forall e :: e in existing ==> e.0 !in pool.taken
    ensures var end := Rehydrate(pool, existing);
            && (forall k :: k in pool.taken ==> k in end.taken && end.taken[k] == pool.taken[k])
            && (forall i :: Honoured(existing, i, pool.free) ==> existing[i].0 in end.taken && end.taken[existing[i].0] == existing[i].1)
            && (forall k :: k in end.taken ==> k in pool.taken || exists i :: Honoured(existing, i, pool.free) && existing[i].0 == k)
    decreases existing
  {
    if |existing| > 0 {
      var rest, mid := existing[1..], Reserve(pool, existing[0].0, existing[0].1);
      assert existing[0] in existing;
      ExceptIs(pool.free, existing[0].1);
      ReservePartitions(pool, existing[0].0, existing[0].1, ports);
      forall i, j | 0 <= i < j < |rest| ensures NameOf(rest[i]) != NameOf(rest[j]) {
        assert NameOf(existing[i + 1]) != NameOf(existing[j + 1]);
      }
      forall e | e in rest ensures e.0 !in mid.taken {
        var i :| 0 <= i < |rest| && rest[i] == e;
        assert NameOf(existing[0]) != NameOf(existing[i + 1]);
      }
      RehydrateHolds(mid, rest, ports);
      forall i | i > 0 ensures Honoured(existing, i, pool.free) <==> Honoured(rest, i - 1, mid.free) {
        HonouredLater(existing, i, pool.free, mid.free);
      }
      var end := Rehydrate(pool, existing);
      forall i | Honoured(existing, i, pool.free) ensures existing[i].0 in end.taken && end.taken[existing[i].0] == existing[i].1 {
        if i > 0 {
          assert Honoured(rest, i - 1, mid.free) && rest[i - 1] == existing[i];
        }
      }
      forall k | k in end.taken && k !in pool.taken ensures exists i :: Honoured(existing, i, pool.free) && existing[i].0 == k {
        if k == existing[0].0 && existing[0].1 in pool.free {
          assert Honoured(existing, 0, pool.free);
        } else {
          var i :| Honoured(rest, i, mid.free) && rest[i].0 == k;
          assert Honoured(existing, i + 1, pool.free) && existing[i + 1] == rest[i];
        }
      }
    }
  }

  /** A recorded allocation survives a restart exactly when its port is in the configured range and no earlier record has
      it; nothing else is allocated. */
  lemma RecordsSurvive(entries: seq<PortEntry>, existing: seq<(string, int)>, k: string)
    requires Unique(NameOf, existing)
    ensures var ports, taken := Expand(entries), Created(entries, existing).taken;
            && (forall i :: Honoured(existing, i, ports) ==> existing[i].0 in taken && taken[existing[i].0] == existing[i].1)
            && (k in taken ==> exists i :: Honoured(existing, i, ports) && existing[i].0 == k)
  {
    var start := Pool(AddAll([], Expand(entries)), map[]);
    AddAllIs([], Expand(entries));
    RehydrateHolds(start, existing, set p | p in Expand(entries));
    assert forall i :: Honoured(existing, i, start.free) <==> Honoured(existing, i, Expand(entries));
  }

  function Itself(p: int): int { p }

  /** `s` lists some of the ports of `all`, in the order in which they first come there. */
  ghost predicate InOrderOf(s: seq<int>, all: seq<int>) {
    && (forall p :: p in s ==> p in all)
    && forall i, j :: 0 <= i < j < |s| ==> IndexOf(Itself, all, s[i]) < IndexOf(Itself, all, s[j])
  }

  lemma {:induction false} AddAllInOrder(s: seq<int>, all: seq<int>, n: nat)
    requires n <= |all| && InOrderOf(s, all) && forall p :: p in s <==> p in all[..n]
    ensures InOrderOf(AddAll(s, all[n..]), all)
    decreases |all| - n
  {
    if n < |all| {
      var p := all[n];
      assert all[n..][0] == p && all[n..][1..] == all[n + 1..] && all[..n + 1] == all[..n] + [p];
      if p !in s {
        IndexOfIs(Itself, all, p, n);
        forall q | q in s ensures IndexOf(Itself, all, q) < n {
          var i :| 0 <= i < n && all[..n][i] == q;
          assert all[i] == q;
        }
      }
      AddAllInOrder(AddTo(s, p), all, n + 1);
    }
  }

  lemma {:induction false} ExceptInOrder(s: seq<int>, x: int, all: seq<int>)
    requires InOrderOf(s, all)
    ensures InOrderOf(Except(s, x), all) && forall p :: p in Except(s, x) ==> p in s
  {
    if |s| > 0 {
      var rest := Except(s[1..], x);
      assert forall i :: 0 <= i < |s[1..]| ==> s[1..][i] == s[i + 1];
      ExceptInOrder(s[1..], x, all);
      forall p | p in rest ensures IndexOf(Itself, all, s[0]) < IndexOf(Itself, all, p) {
        var i :| 0 <= i < |s[1..]| && s[1..][i] == p;
        assert s[i + 1] == p;
      }
      assert s[0] in s && forall p :: p in s[1..] ==> p in s;
    }
  }

  lemma {:induction false} RehydrateInOrder(pool: Pool, existing: seq<(string, int)>, all: seq<int>)
    requires InOrderOf(pool.free, all)
    ensures InOrderOf(Rehydrate(pool, existing).free, all)
    decreases existing
  {
    if |existing| > 0 {
      ExceptInOrder(pool.free, existing[0].1, all);
      RehydrateInOrder(Reserve(pool, existing[0].0, existing[0].1), existing[1..], all);
    }
  }

  /** A new allocator hands out the ports that are left in the order of the configuration. */
  lemma CreatedInOrder(entries: seq<PortEntry>, existing: seq<(string, int)>)
    ensures InOrderOf(Created(entries, existing).free, Expand(entries))
  {
    var all := Expand(entries);
    assert all[..0] == [] && all[0..] == all;
    AddAllInOrder([], all, 0);
    RehydrateInOrder(Pool(AddAll([], all), map[]), existing, all);
  }

  // -------------------------------------------------------------------------
  // Runs of calls
  // -------------------------------------------------------------------------

  datatype Call = AllocateCall(key: string) | ReleaseCall(key: string)

  function Do(pool: Pool, c: Call): Pool {
    match c
    case AllocateCall(key) => Allocate(pool, key)
    case ReleaseCall(key) => Release(pool, key)
  }

  function DoAll(pool: Pool, cs: seq<Call>): Pool
    decreases cs
  {
    if |cs| == 0 then pool else DoAll(Do(pool, cs[0]), cs[1..])
  }

  function IssuedBy(pool: Pool, c: Call): seq<int> {
    if c.AllocateCall? && c.key !in pool.taken && |pool.free| > 0 then [pool.free[0]] else []
  }

  function ReturnedBy(pool: Pool, c: Call): seq<int> {
    if c.ReleaseCall? && c.key in pool.taken then [pool.taken[c.key]] else []
  }

  /** The ports taken from the pool by a run of calls, in order. */
  function Issued(pool: Pool, cs: seq<Call>): seq<int>
    decreases cs
  {
    if |cs| == 0 then [] else IssuedBy(pool, cs[0]) + Issued(Do(pool, cs[0]), cs[1..])
  }

  /** The ports returned to the pool by a run of calls, in order. */
  function Returned(pool: Pool, cs: seq<Call>): seq<int>
    decreases cs
  {
    if |cs| == 0 then [] else ReturnedBy(pool, cs[0]) + Returned(Do(pool, cs[0]), cs[1..])
  }

  lemma CallConserves(pool: Pool, c: Call, ports: set<int>)
    requires Partitions(pool, ports)
    ensures Partitions(Do(pool, c), ports)
    ensures pool.free + ReturnedBy(pool, c) == IssuedBy(pool, c) + Do(pool, c).free
  {
    match c
    case AllocateCall(key) => AllocatePartitions(pool, key, ports);
    case ReleaseCall(key) => ReleasePartitions(pool, key, ports);
  }

  lemma QueueAppend(free: seq<int>, back: seq<int>, out: seq<int>, mid: seq<int>, back': seq<int>, out': seq<int>, last: seq<int>)
    requires free + back == out + mid && mid + back' == out' + last
    ensures free + (back + back') == out + out' + last
  {
    assert free + (back + back') == free + back + back';
    assert out + mid + back' == out + (mid + back');
    assert out + (out' + last) == out + out' + last;
  }

  /** Over any calls no port is lost, duplicated or shared, and the pool is a queue: what leaves is what was
      there followed by what came back. */
  lemma {:induction false} CallsConserve(pool: Pool, cs: seq<Call>, ports: set<int>)
    requires Partitions(pool, ports)
    ensures Partitions(DoAll(pool, cs), ports)
    ensures pool.free + Returned(pool, cs) == Issued(pool, cs) + DoAll(pool, cs).free
    decreases cs
  {
    if |cs| > 0 {
      var pool' := Do(pool, cs[0]);
      CallConserves(pool, cs[0], ports);
      CallsConserve(pool', cs[1..], ports);
      QueueAppend(pool.free, ReturnedBy(pool, cs[0]), IssuedBy(pool, cs[0]), pool'.free,
                  Returned(pool', cs[1..]), Issued(pool', cs[1..]), DoAll(pool', cs[1..]).free);
    }
  }

  /** A released port is reissued only after every port that was free at its release. */
  lemma ReuseWaitsItsTurn(pool: Pool, key: string, cs: seq<Call>, ports: set<int>)
    requires Partitions(pool, ports) && key in pool.taken
    requires pool.taken[key] in Issued(Release(pool, key), cs)
    ensures pool.free + [pool.taken[key]] <= Issued(Release(pool, key), cs)
  {
    var port, after := pool.taken[key], Release(pool, key);
    var out := Issued(after, cs);
    ReleasePartitions(pool, key, ports);
    CallsConserve(after, cs, ports);
    var all := after.free + Returned(after, cs);
    assert all == out + DoAll(after, cs).free;
    var j :| 0 <= j < |out| && out[j] == port;
    assert all[j] == port;
    assert j >= |pool.free|;
    assert out == all[..|out|];
  }

  // -------------------------------------------------------------------------
  // The allocator object
  // -------------------------------------------------------------------------

  class Allocator {
    var available: seq<int>
    var allocations: map<string, int>

    function Contents(): Pool
      reads this
    {
      Pool(available, allocations)
    }

    constructor (entries: seq<PortEntry>, existing: seq<(string, int)>)
      ensures Contents() == Created(entries, existing)
    {
      available, allocations := [], map[];
      new;
      var ports := ExpandPortRange(entries);
      for i := 0 to |ports|
        invariant AddAll(available, ports[i..]) == AddAll([], ports) && allocations == map[]
      {
        assert ports[i..][1..] == ports[i + 1..];
        if ports[i] !in available {
          available := available + [ports[i]];
        }
      }
      for i := 0 to |existing|
        invariant Rehydrate(Contents(), existing[i..]) == Created(entries, existing)
      {
        assert existing[i..][1..] == existing[i + 1..];
        var (name, port) := existing[i];
        if port in available {
          allocations := allocations[name := port];
          available := Except(available, port);
        }
      }
    }

    method AllocatePort(key: string) returns (r: Option<int>)
      modifies this
      ensures Contents() == Allocate(old(Contents()), key)
      ensures r == PortOf(Contents(), key)
    {
      if key in allocations {
        return Some(allocations[key]);
      }
      if |available| == 0 {
        return None;
      }
      var port := available[0];
      available := available[1..];
      allocations := allocations[key := port];
      r := Some(port);
    }

    method ReleasePort(key: string)
      modifies this
      ensures Contents() == Release(old(Contents()), key)
    {
      if key in allocations {
        var port := allocations[key];
        allocations := allocations - {key};
        available := AddTo(available, port);
      }
    }

    function GetPort(key: string): Option<int>
      reads this
    {
      PortOf(Contents(), key)
    }
  }
}
