/** A node that crashes and restarts again and again, beside one that never does. */
module Restarts {
  import opened KeyedLists
  import opened RouteTypes
  import opened Runs
  import opened PortAllocator
  import opened BusSpec
  import opened PortErasure
  import opened Recovery

  /** What a node does between two starts, and how it comes up again: with which allocator and which clock readings. */
  datatype Life = Life(events: seq<Event>, pool: Option<Pool>, clocks: nat -> int)

  /** The table is rebuilt from the journal; the allocator and the keepalive memory are new. */
  function Restart(cfg: NodeConfig, n: Node, pool: Option<Pool>, clocks: nat -> int): Node {
    n.(bus := BusState(Recovered(cfg.name, n.log, clocks), pool, map[]))
  }

  function Lived(cfg: NodeConfig, n: Node, life: Life): Node {
    Restart(cfg, Run(cfg, n, life.events), life.pool, life.clocks)
  }

  function RunLives(cfg: NodeConfig, n: Node, lives: seq<Life>): Node
    decreases lives
  {
    if |lives| == 0 then n else RunLives(cfg, Lived(cfg, n, lives[0]), lives[1..])
  }

  /** Every recovery reads each entry at the time it was first planned at. */
  ghost predicate OriginalReadings(cfg: NodeConfig, n: Node, lives: seq<Life>)
    decreases lives
  {
    |lives| > 0 ==>
      && SameReadings(lives[0].clocks, Run(cfg, n, lives[0].events).history)
      && OriginalReadings(cfg, Lived(cfg, n, lives[0]), lives[1..])
  }

  /** Everything that happened, without the restarts. */
  function Uninterrupted(lives: seq<Life>): seq<Event> {
    if |lives| == 0 then [] else lives[0].events + Uninterrupted(lives[1..])
  }

  /** Two nodes with the same history and, up to ports, the same table. */
  ghost predicate Twins(cfg: NodeConfig, n: Node, m: Node) {
    RunInv(cfg.name, n) && RunInv(cfg.name, m) && n.history == m.history
  }

  lemma TwinTables(cfg: NodeConfig, n: Node, m: Node)
    requires Twins(cfg, n, m)
    ensures SameButPorts(n.bus.table, m.bus.table)
  {
    SameButPortsSym(m.bus.table, Replay(cfg.name, m.history, EmptyTable));
    SameButPortsTrans(n.bus.table, Replay(cfg.name, n.history, EmptyTable), m.bus.table);
  }

  /** Twins take the same decisions, so they journal the same actions. */
  lemma TwinStep(cfg: NodeConfig, n: Node, m: Node, e: Event)
    requires Twins(cfg, n, m) && cfg.policy.NoPolicy?
    ensures Twins(cfg, Step(cfg, n, e), Step(cfg, m, e))
  {
    StepKeepsInv(cfg, n, e);
    StepKeepsInv(cfg, m, e);
    if e.DispatchEvent? {
      TwinTables(cfg, n, m);
      PlanIgnoresPorts(cfg.name, e.action, n.bus.table, m.bus.table, e.clock);
    }
  }

  lemma {:induction false} TwinRun(cfg: NodeConfig, n: Node, m: Node, es: seq<Event>)
    requires Twins(cfg, n, m) && cfg.policy.NoPolicy?
    ensures Twins(cfg, Run(cfg, n, es), Run(cfg, m, es))
    decreases es
  {
    if |es| > 0 {
      TwinStep(cfg, n, m, es[0]);
      TwinRun(cfg, Step(cfg, n, es[0]), Step(cfg, m, es[0]), es[1..]);
    }
  }

  lemma {:induction false} RunAppend(cfg: NodeConfig, n: Node, es: seq<Event>, fs: seq<Event>)
    ensures Run(cfg, n, es + fs) == Run(cfg, Run(cfg, n, es), fs)
    decreases es
  {
    if |es| == 0 {
      assert es + fs == fs;
    } else {
      assert (es + fs)[1..] == es[1..] + fs;
      RunAppend(cfg, Step(cfg, n, es[0]), es[1..], fs);
    }
  }

  lemma RestartKeepsTwins(cfg: NodeConfig, n: Node, m: Node, pool: Option<Pool>, clocks: nat -> int)
    requires Twins(cfg, n, m) && SameReadings(clocks, n.history)
    ensures Twins(cfg, Restart(cfg, n, pool, clocks), m)
  {
    TailRebuilds(cfg.name, n.log, n.history, clocks);
  }

  lemma {:induction false} LivesKeepTwins(cfg: NodeConfig, n: Node, m: Node, lives: seq<Life>)
    requires Twins(cfg, n, m) && cfg.policy.NoPolicy? && OriginalReadings(cfg, n, lives)
    ensures Twins(cfg, RunLives(cfg, n, lives), Run(cfg, m, Uninterrupted(lives)))
    decreases lives
  {
    if |lives| > 0 {
      var life := lives[0];
      TwinRun(cfg, n, m, life.events);
      RestartKeepsTwins(cfg, Run(cfg, n, life.events), Run(cfg, m, life.events), life.pool, life.clocks);
      LivesKeepTwins(cfg, Lived(cfg, n, life), Run(cfg, m, life.events), lives[1..]);
      RunAppend(cfg, m, life.events, Uninterrupted(lives[1..]));
    }
  }

  /** However often a node crashes and restarts, at whatever points and with whatever allocator, and whatever it does then:
      it has journaled the same history as a node that never crashed and, up to ports, holds the same table. */
  lemma CrashesAreInvisible(cfg: NodeConfig, pool: Option<Pool>, lives: seq<Life>, es: seq<Event>)
    requires cfg.policy.NoPolicy? && OriginalReadings(cfg, Booted(pool), lives)
    ensures var n := Run(cfg, RunLives(cfg, Booted(pool), lives), es);
            var m := Run(cfg, Booted(pool), Uninterrupted(lives) + es);
            n.history == m.history && SameButPorts(n.bus.table, m.bus.table)
  {
    var n, m := RunLives(cfg, Booted(pool), lives), Run(cfg, Booted(pool), Uninterrupted(lives));
    LivesKeepTwins(cfg, Booted(pool), Booted(pool), lives);
    TwinRun(cfg, n, m, es);
    RunAppend(cfg, Booted(pool), Uninterrupted(lives), es);
    TwinTables(cfg, Run(cfg, n, es), Run(cfg, m, es));
  }
}
