/** How much of the journal compaction keeps, over whole runs. */
module Compaction {
  import opened KeyedLists
  import opened Journal
  import opened Runs
  import opened BusSpec
  import PortAllocator
  import opened Recovery

  function Least(a: int, b: int): int { if a <= b then a else b }

  /** Where the snapshot stands; 0 without one. */
  function SnapshotAt(log: Log): nat { if log.snapshot.Some? then log.snapshot.value.atSeq else 0 }

  /** The log holds everything until it is first compacted; from then on, what was journaled since the snapshot and the
      `tailSize` actions before it, as far as there are so many. */
  ghost predicate KeepsTail(log: Log, history: seq<Timed>, tailSize: nat) {
    |log.entries| == if log.snapshot.None? then |history| else Least(|history|, |history| - log.snapshot.value.atSeq + tailSize)
  }

  /** Every compaction of the run has the same settings. */
  predicate Settings(es: seq<Event>, minEntries: nat, tailSize: nat) {
    forall i :: 0 <= i < |es| && es[i].CompactEvent? ==> es[i] == CompactEvent(minEntries, tailSize)
  }

  ghost predicate TailInv(self: string, n: Node, tailSize: nat) {
    LogShape(self, n.log, n.history) && KeepsTail(n.log, n.history, tailSize)
  }

  lemma LastNumber(self: string, log: Log, history: seq<Timed>)
    requires LogShape(self, log, history)
    ensures log.LastSeq() == if |log.entries| > 0 then |history| else 0
  {
  }

  lemma CompactKeepsTail(cfg: NodeConfig, n: Node, minEntries: nat, tailSize: nat)
    requires TailInv(cfg.name, n, tailSize)
    ensures var m := Step(cfg, n, CompactEvent(minEntries, tailSize));
            && TailInv(cfg.name, m, tailSize) && m.history == n.history
            && (m.log == n.log <== |n.log.entries| == 0 || |n.history| - SnapshotAt(n.log) < minEntries)
            && (m.log.snapshot == Some(Snapshot(|n.history|, n.bus.table)) <== |n.log.entries| > 0 && |n.history| - SnapshotAt(n.log) >= minEntries)
  {
    CompactShape(cfg.name, n.log, n.history, n.bus.table, minEntries, tailSize);
    LastNumber(cfg.name, n.log, n.history);
    var lo := MaxOf(1, |n.history| - tailSize + 1);
    if |n.log.entries| > 0 && |n.history| - SnapshotAt(n.log) >= minEntries {
      FromTail(cfg.name, n.log.entries, n.history, lo);
    }
  }

  lemma DispatchKeepsTail(cfg: NodeConfig, n: Node, e: Event, tailSize: nat)
    requires TailInv(cfg.name, n, tailSize) && e.DispatchEvent?
    ensures TailInv(cfg.name, Step(cfg, n, e), tailSize)
  {
    AppendShape(cfg.name, n.log, n.history, At(e.action, e.clock));
  }

  lemma {:induction false} RunKeepsTail(cfg: NodeConfig, n: Node, es: seq<Event>, minEntries: nat, tailSize: nat)
    requires TailInv(cfg.name, n, tailSize) && Settings(es, minEntries, tailSize)
    ensures TailInv(cfg.name, Run(cfg, n, es), tailSize)
    decreases es
  {
    if |es| > 0 {
      if es[0].DispatchEvent? {
        DispatchKeepsTail(cfg, n, es[0], tailSize);
      } else {
        CompactKeepsTail(cfg, n, minEntries, tailSize);
      }
      assert forall i :: 0 <= i < |es[1..]| ==> es[1..][i] == es[i + 1];
      RunKeepsTail(cfg, Step(cfg, n, es[0]), es[1..], minEntries, tailSize);
    }
  }

  /** After any run with fixed settings, under any policy, the journal holds exactly the newest actions: all of them before
      the first compaction, afterwards those since the snapshot and the `tailSize` before it; so never fewer than the
      newest `tailSize`. */
  lemma TailAfterRun(cfg: NodeConfig, pool: Option<PortAllocator.Pool>, es: seq<Event>, minEntries: nat, tailSize: nat)
    requires Settings(es, minEntries, tailSize)
    ensures var n := Run(cfg, Booted(pool), es);
            && HoldsTail(cfg.name, n.log.entries, n.history) && KeepsTail(n.log, n.history, tailSize)
            && |n.log.entries| >= Least(tailSize, |n.history|)
  {
    RunKeepsTail(cfg, Booted(pool), es, minEntries, tailSize);
  }

  /** And compaction bounds it: right after one, less than `minEntries` actions, at least none, have come since the snapshot,
      and the journal holds at most those and `tailSize` more. */
  lemma CompactionBounds(cfg: NodeConfig, pool: Option<PortAllocator.Pool>, es: seq<Event>, minEntries: nat, tailSize: nat)
    requires Settings(es, minEntries, tailSize)
    ensures var n := Run(cfg, Booted(pool), es + [CompactEvent(minEntries, tailSize)]);
            |n.log.entries| <= Least(|n.history|, (if minEntries > 0 then minEntries - 1 else 0) + tailSize)
  {
    var e, n := CompactEvent(minEntries, tailSize), Run(cfg, Booted(pool), es);
    RunKeepsTail(cfg, Booted(pool), es, minEntries, tailSize);
    CompactKeepsTail(cfg, n, minEntries, tailSize);
    RunSnoc(cfg, Booted(pool), es, e);
  }

  lemma {:induction false} RunSnoc(cfg: NodeConfig, n: Node, es: seq<Event>, e: Event)
    ensures Run(cfg, n, es + [e]) == Step(cfg, Run(cfg, n, es), e)
    decreases es
  {
    if |es| == 0 {
      assert es + [e] == [e] && [e][1..] == [];
    } else {
      assert (es + [e])[1..] == es[1..] + [e];
      RunSnoc(cfg, Step(cfg, n, es[0]), es[1..], e);
    }
  }
}
