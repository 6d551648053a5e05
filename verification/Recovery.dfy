/** Compaction of the journal, and recovery of the route table from what compaction leaves. */
module Recovery {
  import opened KeyedLists
  import opened RouteTypes
  import opened Journal
  import opened Rib
  import opened RibTheorems
  import opened Runs
  import opened PortAllocator
  import opened BusSpec
  import opened PortErasure

  function MaxOf(a: int, b: int): int { if a >= b then a else b }

  datatype CompactionResult = Skipped | Compacted(snapshotAtSeq: nat, pruned: nat)

  function SinceSnapshot(log: Log): int {
    if log.snapshot.Some? then log.LastSeq() - log.snapshot.value.atSeq else log.LastSeq()
  }

  /** The journal after one compaction cycle on table `t`. */
  function CompactedLog(log: Log, t: RouteTable, minEntries: nat, tailSize: nat): Log {
    var last := log.LastSeq();
    if last == 0 || SinceSnapshot(log) < minEntries then log
    else Log(From(log.entries, MaxOf(1, last - tailSize + 1)), log.nextSeq, Some(Snapshot(last, t)))
  }

  predicate Skips(log: Log, minEntries: nat) { log.LastSeq() == 0 || SinceSnapshot(log) < minEntries }

  /** `n` is the number of the newest entry. */
  ghost predicate Newest(n: nat, es: seq<Entry>) {
    (exists e :: e in es && e.seqNo == n) && forall e :: e in es ==> e.seqNo <= n
  }

  /** Fewer than `minEntries` numbers have been given since the snapshot, or none is held. */
  ghost predicate FewSince(log: Log, minEntries: nat) {
    forall e :: e in log.entries ==> e.seqNo < minEntries + if log.snapshot.Some? then log.snapshot.value.atSeq else 0
  }

  /** `kept` are exactly the entries numbered above `bound`. */
  ghost predicate CutTo(kept: seq<Entry>, es: seq<Entry>, bound: int) {
    forall e :: e in kept <==> e in es && e.seqNo > bound
  }

  lemma NumberedLast(log: Log)
    requires Numbered(log)
    ensures forall e :: e in log.entries ==> 1 <= e.seqNo <= log.LastSeq()
    ensures |log.entries| > 0 ==> Newest(log.LastSeq(), log.entries)
  {
    forall e | e in log.entries ensures 1 <= e.seqNo <= log.LastSeq() {
      var i :| 0 <= i < |log.entries| && log.entries[i] == e;
    }
  }

  lemma SkipsWhen(log: Log, minEntries: nat)
    requires Numbered(log)
    ensures Skips(log, minEntries) <==> FewSince(log, minEntries)
  {
    NumberedLast(log);
  }

  lemma KeepsWhich(log: Log, t: RouteTable, minEntries: nat, tailSize: nat)
    requires Numbered(log) && !Skips(log, minEntries)
    ensures CutTo(CompactedLog(log, t, minEntries, tailSize).entries, log.entries, log.LastSeq() - tailSize)
  {
    var lo := MaxOf(1, log.LastSeq() - tailSize + 1);
    NumberedLast(log);
    forall e ensures e in From(log.entries, lo) <==> e in log.entries && e.seqNo >= lo {
      FromMember(log.entries, lo, e);
    }
  }

  lemma CompactedMeans(log: Log, t: RouteTable, minEntries: nat, tailSize: nat)
    requires Numbered(log)
    ensures Skips(log, minEntries) <==> FewSince(log, minEntries)
    ensures !Skips(log, minEntries) ==>
              && Newest(log.LastSeq(), log.entries)
              && CutTo(CompactedLog(log, t, minEntries, tailSize).entries, log.entries, log.LastSeq() - tailSize)
  {
    NumberedLast(log);
    SkipsWhen(log, minEntries);
    if !Skips(log, minEntries) {
      KeepsWhich(log, t, minEntries, tailSize);
    }
  }

  class CompactionManager {
    const journal: InMemoryActionLog
    const rib: RoutingInformationBase
    const minEntries: nat
    const tailSize: nat

    constructor (journal: InMemoryActionLog, rib: RoutingInformationBase, minEntries: nat, tailSize: nat)
      ensures this.journal == journal && this.rib == rib && this.minEntries == minEntries && this.tailSize == tailSize
    {
      this.journal, this.rib, this.minEntries, this.tailSize := journal, rib, minEntries, tailSize;
    }

    /** Skipped while fewer than `minEntries` actions have been journaled since the snapshot; otherwise a snapshot at the last
        number, and the entries of the last `tailSize` numbers kept. */
    method Compact() returns (r: CompactionResult)
      modifies journal
      ensures journal.Contents() == CompactedLog(old(journal.Contents()), rib.state, minEntries, tailSize)
      ensures r.Skipped? ==> journal.Contents() == old(journal.Contents())
      ensures r.Compacted? ==> journal.snap == Some(Snapshot(r.snapshotAtSeq, rib.state)) && journal.nextSeq == old(journal.nextSeq)
                               && r.pruned == |old(journal.entries)| - |journal.entries|
      ensures old(Numbered(journal.Contents())) ==>
                && Numbered(journal.Contents())
                && (r.Skipped? <==> old(FewSince(journal.Contents(), minEntries)))
                && (r.Compacted? ==> Newest(r.snapshotAtSeq, old(journal.entries)))
                && (r.Compacted? ==> CutTo(journal.entries, old(journal.entries), r.snapshotAtSeq - tailSize))
    {
      ghost var was := journal.Contents();
      var last := journal.LastSeq();
      var since := if journal.snap.Some? then last - journal.snap.value.atSeq else last;
      assert Skips(was, minEntries) <==> last == 0 || since < minEntries;
      if Numbered(was) {
        CompactedMeans(was, rib.state, minEntries, tailSize);
      }
      if last == 0 {
        return Skipped;
      }
      if since < minEntries {
        return Skipped;
      }
      journal.TakeSnapshot(last, rib.state);
      var pruned := journal.Prune(MaxOf(1, last - tailSize + 1));
      return Compacted(last, pruned);
    }
  }

  /** Planning journal entries in order; the entry numbered `n` is planned when the clock reads `clocks(n)`. */
  function ReplayEntries(self: string, es: seq<Entry>, t: RouteTable, clocks: nat -> int): RouteTable {
    if |es| == 0 then t
    else ReplayEntries(self, es[1..], Planned(self, es[0].action, t, clocks(es[0].seqNo)).next, clocks)
  }

  function ReplayFrom(log: Log): nat {
    if log.snapshot.Some? then log.snapshot.value.atSeq else 0
  }

  function ReplayBase(log: Log): RouteTable {
    if log.snapshot.Some? then log.snapshot.value.state else EmptyTable
  }

  /** The table the service constructor rebuilds from a journal. */
  function Recovered(self: string, log: Log, clocks: nat -> int): RouteTable {
    ReplayEntries(self, From(log.entries, ReplayFrom(log) + 1), ReplayBase(log), clocks)
  }

  lemma ReplayNext(self: string, es: seq<Entry>, n: nat, t: RouteTable, clocks: nat -> int)
    requires n < |es|
    ensures ReplayEntries(self, es[n..], t, clocks)
            == ReplayEntries(self, es[n + 1..], Planned(self, es[n].action, t, clocks(es[n].seqNo)).next, clocks)
  {
    assert es[n..][1..] == es[n + 1..];
  }

  /** One entry of the journal: planned and, unless it changes nothing, committed without journaling it again. */
  method ReplayOne(rib: RoutingInformationBase, a: Action, clock: int)
    requires rib.journal == null
    modifies rib
    ensures rib.state == Planned(rib.nodeId, a, old(rib.state), clock).next
  {
    var plan := rib.Plan(a, rib.state, clock);
    UnchangedPlan(rib.nodeId, a, rib.state, clock);
    if plan.changed {
      rib.Commit(plan, a);
    }
  }

  method Recover(self: string, journal: InMemoryActionLog, clocks: nat -> int) returns (t: RouteTable)
    ensures t == Recovered(self, journal.Contents(), clocks)
  {
    var rib := new RoutingInformationBase(self, null, EmptyTable);
    var after := 0;
    if journal.snap.Some? {
      rib.state := journal.snap.value.state;
      after := journal.snap.value.atSeq;
    }
    var es := journal.Replay(after);
    ghost var goal := ReplayEntries(self, es, rib.state, clocks);
    assert goal == Recovered(self, journal.Contents(), clocks);
    assert es[0..] == es;
    for n := 0 to |es|
      invariant rib.nodeId == self && rib.journal == null && fresh(rib)
      invariant ReplayEntries(self, es[n..], rib.state, clocks) == goal
    {
      ReplayNext(self, es, n, rib.state, clocks);
      ReplayOne(rib, es[n].action, clocks(es[n].seqNo));
    }
    t := rib.state;
  }

  // -------------------------------------------------------------------------
  // A node run: dispatches and compactions in any order
  // -------------------------------------------------------------------------

  datatype Event =
    | DispatchEvent(action: Action, clock: int, up: set<string>)
    | CompactEvent(minEntries: nat, tailSize: nat)

  /** A running node; `history` is every journaled action with the clock reading it was planned at. */
  datatype Node = Node(bus: BusState, log: Log, history: seq<Timed>)

  function Booted(pool: Option<Pool>): Node {
    Node(BusState(EmptyTable, pool, map[]), EmptyLog, [])
  }

  function Step(cfg: NodeConfig, n: Node, e: Event): Node {
    match e
    case CompactEvent(minEntries, tailSize) => n.(log := CompactedLog(n.log, n.bus.table, minEntries, tailSize))
    case DispatchEvent(a, clock, up) =>
      var o := Dispatched(cfg, n.bus, a, clock, up);
      if o.result.Success? then Node(o.state, n.log.Append(a, cfg.name), n.history + [At(a, clock)])
      else n.(bus := o.state)
  }

  function Run(cfg: NodeConfig, n: Node, es: seq<Event>): Node
    decreases es
  {
    if |es| == 0 then n else Run(cfg, Step(cfg, n, es[0]), es[1..])
  }

  function EntryAt(self: string, history: seq<Timed>, i: nat): Entry
    requires i < |history|
  {
    Entry(i + 1, history[i].action, self)
  }

  /** The journal holds the newest `|entries|` actions of the history. */
  ghost predicate HoldsTail(self: string, es: seq<Entry>, history: seq<Timed>) {
    && |es| <= |history|
    && forall j :: 0 <= j < |es| ==> es[j] == EntryAt(self, history, |history| - |es| + j)
  }

  /** The log has numbered the whole history, holds its newest part, and its snapshot is no older than that part. */
  ghost predicate LogShape(self: string, log: Log, history: seq<Timed>) {
    && log.nextSeq == |history| + 1
    && HoldsTail(self, log.entries, history)
    && (log.snapshot.None? ==> |log.entries| == |history|)
    && (log.snapshot.Some? ==> |history| - |log.entries| <= log.snapshot.value.atSeq <= |history|)
  }

  ghost predicate LogInv(self: string, log: Log, history: seq<Timed>) {
    && LogShape(self, log, history)
    && (log.snapshot.Some? ==>
          SameButPorts(log.snapshot.value.state, Replay(self, history[..log.snapshot.value.atSeq], EmptyTable)))
  }

  ghost predicate RunInv(self: string, n: Node) {
    LogInv(self, n.log, n.history) && SameButPorts(n.bus.table, Replay(self, n.history, EmptyTable))
  }

  lemma {:induction false} FromNone(es: seq<Entry>, lo: nat)
    requires forall e :: e in es ==> e.seqNo >= lo
    ensures From(es, lo) == es
  {
    if |es| > 0 {
      assert es[0] in es;
      FromNone(es[1..], lo);
      assert es == [es[0]] + es[1..];
    }
  }

  /** Pruning a run of consecutive entries keeps a suffix of it. */
  lemma {:induction false} FromConsecutive(es: seq<Entry>, base: nat, lo: nat)
    requires forall j :: 0 <= j < |es| ==> es[j].seqNo == base + j
    requires base <= lo <= base + |es|
    ensures From(es, lo) == es[lo - base..]
  {
    if lo == base {
      FromNone(es, lo);
    } else {
      assert forall j :: 0 <= j < |es[1..]| ==> es[1..][j] == es[j + 1];
      FromConsecutive(es[1..], base + 1, lo);
    }
  }

  lemma FromTail(self: string, es: seq<Entry>, history: seq<Timed>, lo: nat)
    requires HoldsTail(self, es, history) && |history| - |es| < lo <= |history| + 1
    ensures HoldsTail(self, From(es, lo), history) && |From(es, lo)| == |history| + 1 - lo
  {
    var base := |history| - |es| + 1;
    FromConsecutive(es, base, lo);
  }

  lemma PruneShape(self: string, log: Log, history: seq<Timed>, t: RouteTable, tailSize: nat)
    requires LogShape(self, log, history) && |log.entries| > 0
    ensures log.LastSeq() == |history|
    ensures LogShape(self, Log(From(log.entries, MaxOf(1, |history| - tailSize + 1)), log.nextSeq, Some(Snapshot(|history|, t))), history)
  {
    var lo := MaxOf(1, |history| - tailSize + 1);
    if |history| - |log.entries| < lo {
      FromTail(self, log.entries, history, lo);
    } else {
      FromNone(log.entries, lo);
    }
  }

  /** Compaction keeps the shape of the log. */
  lemma CompactShape(self: string, log: Log, history: seq<Timed>, t: RouteTable, minEntries: nat, tailSize: nat)
    requires LogShape(self, log, history)
    ensures LogShape(self, CompactedLog(log, t, minEntries, tailSize), history)
    ensures log.LastSeq() != 0 ==> log.LastSeq() == |history|
  {
    if log.LastSeq() != 0 {
      PruneShape(self, log, history, t, tailSize);
    }
  }

  lemma CompactKeeps(cfg: NodeConfig, n: Node, minEntries: nat, tailSize: nat)
    requires RunInv(cfg.name, n)
    ensures RunInv(cfg.name, Step(cfg, n, CompactEvent(minEntries, tailSize)))
  {
    CompactShape(cfg.name, n.log, n.history, n.bus.table, minEntries, tailSize);
    assert n.history[..|n.history|] == n.history;
  }

  lemma {:induction false} ReplaySnoc(self: string, history: seq<Timed>, x: Timed, t: RouteTable)
    ensures Replay(self, history + [x], t) == Planned(self, x.action, Replay(self, history, t), x.clock).next
  {
    ReplayAppend(self, history, [x], t);
  }

  lemma SameButPortsTrans(t: RouteTable, u: RouteTable, v: RouteTable)
    requires SameButPorts(t, u) && SameButPorts(u, v)
    ensures SameButPorts(t, v)
  {
  }

  lemma CommittedTable(cfg: NodeConfig, s: BusState, a: Action, clock: int, up: set<string>, t: RouteTable)
    requires cfg.policy.NoPolicy? && SameButPorts(s.table, t)
    ensures var o := Dispatched(cfg, s, a, clock, up);
            SameButPorts(o.state.table, if o.result.Success? then Planned(cfg.name, a, t, clock).next else t)
  {
    var plan := Planned(cfg.name, a, s.table, clock);
    if !LacksToken(a) && plan.changed {
      PlanIgnoresPorts(cfg.name, a, s.table, t, clock);
      StampingKeepsRoutes(plan, s.pool);
      SameButPortsTrans(PlanPorts(plan, s.pool).next, plan.next, Planned(cfg.name, a, t, clock).next);
    }
  }

  lemma AppendShape(self: string, log: Log, history: seq<Timed>, x: Timed)
    requires LogShape(self, log, history)
    ensures LogShape(self, log.Append(x.action, self), history + [x])
  {
    var log', history' := log.Append(x.action, self), history + [x];
    var k := |log.entries|;
    assert log'.entries[k] == EntryAt(self, history', |history|);
    forall j | 0 <= j < k ensures log'.entries[j] == EntryAt(self, history', |history'| - |log'.entries| + j) {
      assert log.entries[j] == EntryAt(self, history, |history| - k + j);
    }
  }

  lemma AppendKeeps(self: string, log: Log, history: seq<Timed>, x: Timed)
    requires LogInv(self, log, history)
    ensures LogInv(self, log.Append(x.action, self), history + [x])
  {
    AppendShape(self, log, history, x);
    if log.snapshot.Some? {
      assert (history + [x])[..log.snapshot.value.atSeq] == history[..log.snapshot.value.atSeq];
    }
  }

  lemma DispatchKeeps(cfg: NodeConfig, n: Node, a: Action, clock: int, up: set<string>)
    requires RunInv(cfg.name, n) && cfg.policy.NoPolicy?
    ensures RunInv(cfg.name, Step(cfg, n, DispatchEvent(a, clock, up)))
  {
    var o := Dispatched(cfg, n.bus, a, clock, up);
    CommittedTable(cfg, n.bus, a, clock, up, Replay(cfg.name, n.history, EmptyTable));
    AppendKeeps(cfg.name, n.log, n.history, At(a, clock));
    ReplaySnoc(cfg.name, n.history, At(a, clock), EmptyTable);
  }

  lemma StepKeepsInv(cfg: NodeConfig, n: Node, e: Event)
    requires RunInv(cfg.name, n) && cfg.policy.NoPolicy?
    ensures RunInv(cfg.name, Step(cfg, n, e))
  {
    match e
    case CompactEvent(minEntries, tailSize) => CompactKeeps(cfg, n, minEntries, tailSize);
    case DispatchEvent(a, clock, up) => DispatchKeeps(cfg, n, a, clock, up);
  }

  lemma {:induction false} RunKeepsInv(cfg: NodeConfig, n: Node, es: seq<Event>)
    requires RunInv(cfg.name, n) && cfg.policy.NoPolicy?
    ensures RunInv(cfg.name, Run(cfg, n, es))
    decreases es
  {
    if |es| > 0 {
      StepKeepsInv(cfg, n, es[0]);
      RunKeepsInv(cfg, Step(cfg, n, es[0]), es[1..]);
    }
  }

  /** The recovery clock gives each entry the reading it was first planned at. */
  ghost predicate SameReadings(clocks: nat -> int, history: seq<Timed>) {
    forall i :: 0 <= i < |history| ==> clocks(i + 1) == history[i].clock
  }

  /** `es` are the journal entries of `tail`, numbered from `base + 1`, and the recovery clock reads as `tail` says. */
  ghost predicate Mirrors(self: string, es: seq<Entry>, tail: seq<Timed>, base: nat, clocks: nat -> int) {
    && |es| == |tail|
    && forall j :: 0 <= j < |es| ==> es[j] == Entry(base + j + 1, tail[j].action, self) && clocks(base + j + 1) == tail[j].clock
  }

  lemma {:induction false} ReplayMirrors(self: string, es: seq<Entry>, tail: seq<Timed>, base: nat, t: RouteTable, u: RouteTable, clocks: nat -> int)
    requires Mirrors(self, es, tail, base, clocks) && SameButPorts(t, u)
    ensures SameButPorts(ReplayEntries(self, es, t, clocks), Replay(self, tail, u))
    decreases es
  {
    if |es| > 0 {
      var x := tail[0];
      assert es[0].action == x.action && clocks(es[0].seqNo) == x.clock;
      PlanIgnoresPorts(self, x.action, t, u, x.clock);
      MirrorsRest(self, es, tail, base, clocks);
      ReplayMirrors(self, es[1..], tail[1..], base + 1, Planned(self, x.action, t, x.clock).next, Planned(self, x.action, u, x.clock).next, clocks);
    }
  }

  lemma MirrorsRest(self: string, es: seq<Entry>, tail: seq<Timed>, base: nat, clocks: nat -> int)
    requires Mirrors(self, es, tail, base, clocks) && |es| > 0
    ensures Mirrors(self, es[1..], tail[1..], base + 1, clocks)
  {
    forall j | 0 <= j < |es[1..]|
      ensures es[1..][j] == Entry(base + 1 + j + 1, tail[1..][j].action, self) && clocks(base + 1 + j + 1) == tail[1..][j].clock
    {
      assert es[1..][j] == es[j + 1];
    }
  }

  lemma BaseMatches(self: string, log: Log, history: seq<Timed>)
    requires LogInv(self, log, history)
    ensures |history| - |log.entries| <= ReplayFrom(log) <= |history|
    ensures SameButPorts(ReplayBase(log), Replay(self, history[..ReplayFrom(log)], EmptyTable))
  {
    assert history[..0] == [];
  }

  lemma ReplaySplit(self: string, history: seq<Timed>, from: nat, t: RouteTable)
    requires from <= |history|
    ensures Replay(self, history[from..], Replay(self, history[..from], t)) == Replay(self, history, t)
  {
    assert history == history[..from] + history[from..];
    ReplayAppend(self, history[..from], history[from..], t);
  }

  /** The entries recovery replays are the history since the snapshot. */
  lemma ReplayedTail(self: string, log: Log, history: seq<Timed>, again: seq<Timed>, clocks: nat -> int)
    requires LogInv(self, log, history) && SameActions(history, again) && SameReadings(clocks, again)
    ensures ReplayFrom(log) <= |history|
    ensures Mirrors(self, From(log.entries, ReplayFrom(log) + 1), again[ReplayFrom(log)..], ReplayFrom(log), clocks)
  {
    var from, kept := ReplayFrom(log), From(log.entries, ReplayFrom(log) + 1);
    FromTail(self, log.entries, history, from + 1);
    forall j | 0 <= j < |kept|
      ensures kept[j] == Entry(from + j + 1, again[from..][j].action, self) && clocks(from + j + 1) == again[from..][j].clock
    {
      assert kept[j] == EntryAt(self, history, from + j) && again[from..][j] == again[from + j];
    }
  }

  lemma RecoveredOnto(self: string, log: Log, tail: seq<Timed>, base: RouteTable, clocks: nat -> int)
    requires Mirrors(self, From(log.entries, ReplayFrom(log) + 1), tail, ReplayFrom(log), clocks) && SameButPorts(ReplayBase(log), base)
    ensures SameButPorts(Recovered(self, log, clocks), Replay(self, tail, base))
  {
    ReplayMirrors(self, From(log.entries, ReplayFrom(log) + 1), tail, ReplayFrom(log), ReplayBase(log), base, clocks);
  }

  /** Recovery replays the tail of the history, read at its own clock, on the replay of what came before. */
  lemma RecoveredIs(self: string, log: Log, history: seq<Timed>, again: seq<Timed>, clocks: nat -> int)
    requires LogInv(self, log, history) && SameActions(history, again) && SameReadings(clocks, again)
    ensures ReplayFrom(log) <= |history|
    ensures SameButPorts(Recovered(self, log, clocks),
                         Replay(self, again[ReplayFrom(log)..], Replay(self, history[..ReplayFrom(log)], EmptyTable)))
  {
    ReplayedTail(self, log, history, again, clocks);
    BaseMatches(self, log, history);
    RecoveredOnto(self, log, again[ReplayFrom(log)..], Replay(self, history[..ReplayFrom(log)], EmptyTable), clocks);
  }

  lemma TailRebuilds(self: string, log: Log, history: seq<Timed>, clocks: nat -> int)
    requires LogInv(self, log, history) && SameReadings(clocks, history)
    ensures SameButPorts(Recovered(self, log, clocks), Replay(self, history, EmptyTable))
  {
    RecoveredIs(self, log, history, history, clocks);
    ReplaySplit(self, history, ReplayFrom(log), EmptyTable);
  }

  lemma SameButPortsSym(t: RouteTable, u: RouteTable)
    requires SameButPorts(t, u)
    ensures SameButPorts(u, t)
  {
  }

  /** After any interleaving of dispatches and compactions, recovery rebuilds the live table, and both equal the
      replay of everything ever journaled, up to ports. */
  lemma RecoveryIsFaithful(cfg: NodeConfig, pool: Option<Pool>, es: seq<Event>, clocks: nat -> int)
    requires cfg.policy.NoPolicy?
    requires SameReadings(clocks, Run(cfg, Booted(pool), es).history)
    ensures var n := Run(cfg, Booted(pool), es);
            && SameButPorts(Recovered(cfg.name, n.log, clocks), Replay(cfg.name, n.history, EmptyTable))
            && SameButPorts(Recovered(cfg.name, n.log, clocks), n.bus.table)
  {
    RunKeepsInv(cfg, Booted(pool), es);
    var n := Run(cfg, Booted(pool), es);
    TailRebuilds(cfg.name, n.log, n.history, clocks);
    SameButPortsSym(n.bus.table, Replay(cfg.name, n.history, EmptyTable));
    SameButPortsTrans(Recovered(cfg.name, n.log, clocks), Replay(cfg.name, n.history, EmptyTable), n.bus.table);
  }
}
