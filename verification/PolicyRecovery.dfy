/** Recovery under an inbound policy: the journal keeps updates as received, the live node planned them as filtered. */
module PolicyRecovery {
  import opened KeyedLists
  import opened RouteTypes
  import opened Journal
  import opened Rib
  import opened RibTheorems
  import opened UpdateLoop
  import opened Runs
  import opened PortAllocator
  import opened BusSpec
  import opened PortErasure
  import opened DispatchFacts
  import opened Recovery
  import opened Holdings

  /** The policy lets no channel of this name through. */
  predicate Rejects(cfg: NodeConfig, t: RouteTable, info: PeerInfo, us: seq<UpdateItem>, name: string) {
    && cfg.policy.RoutePolicy? && Find(PeerName, t.peers, info.name).Some?
    && forall ch :: ch in cfg.policy.canReceive(Find(PeerName, t.peers, info.name).value, ChannelsOf(us)) ==> ch.name != name
  }

  // -------------------------------------------------------------------------
  // When items leave a key as it is
  // -------------------------------------------------------------------------

  /** The items leave what is held under `k` as it is: no offer shorter than a fresh route, none for a stale or absent one,
      and no withdrawal of a held one, unless the best offer after it brings the very same route back. */
  ghost predicate LeavesAlone(self: string, from: PeerInfo, us: seq<UpdateItem>, k: RouteKey, existing: Option<InternalRoute>) {
    var offers := Offers(self, from, AfterWithdrawal(us, k), k);
    if Withdraws(us, k) then
      if offers == [] then existing.None?
      else existing.Some? && exists r :: FirstShortest(r, offers) && Core(r) == Core(existing.value)
    else if existing.None? || existing.value.isStale then offers == []
    else forall r :: r in offers ==> |r.nodePath| >= |existing.value.nodePath|
  }

  lemma OneFirstShortest(a: InternalRoute, b: InternalRoute, cs: seq<InternalRoute>)
    requires FirstShortest(a, cs) && FirstShortest(b, cs)
    ensures a == b
  {
    var i :| FirstShortestAt(i, a, cs);
    var j :| FirstShortestAt(j, b, cs);
    assert !(i < j) && !(j < i);
  }

  lemma FreshLeft(found: InternalRoute, r: InternalRoute, offers: seq<InternalRoute>)
    requires FirstShortest(found, [r] + offers)
    ensures Core(found) == Core(r) <==> forall o :: o in offers ==> |o.nodePath| >= |r.nodePath|
  {
    var cs := [r] + offers;
    var i :| FirstShortestAt(i, found, cs);
    if forall o :: o in offers ==> |o.nodePath| >= |r.nodePath| {
      assert forall j :: 0 < j < |cs| ==> cs[j] in offers;
      assert FirstShortestAt(0, r, cs);
      OneFirstShortest(found, r, cs);
    } else {
      var o :| o in offers && |o.nodePath| < |r.nodePath|;
      var j :| 0 <= j < |offers| && offers[j] == o;
      assert cs[j + 1] == o;
      assert |found.nodePath| <= |o.nodePath|;
      assert Core(found).nodePath == found.nodePath && Core(r).nodePath == r.nodePath;
    }
  }

  /** The condition says what it should: what settles is what was held. */
  lemma LeavesAloneIff(found: Option<InternalRoute>, self: string, from: PeerInfo, us: seq<UpdateItem>, k: RouteKey, existing: Option<InternalRoute>)
    requires Settles(found, self, from, us, k, existing)
    ensures LeavesAlone(self, from, us, k, existing) <==> CoreOpt(found) == CoreOpt(existing)
  {
    var offers := Offers(self, from, AfterWithdrawal(us, k), k);
    OffersAreFresh(self, from, AfterWithdrawal(us, k), k);
    if Withdraws(us, k) {
      assert Candidates(self, from, us, k, existing) == offers;
      if offers != [] && existing.Some? && exists r :: FirstShortest(r, offers) && Core(r) == Core(existing.value) {
        var r :| FirstShortest(r, offers) && Core(r) == Core(existing.value);
        OneFirstShortest(r, found.value, offers);
      }
    } else if existing.Some? && !existing.value.isStale {
      assert Candidates(self, from, us, k, existing) == [existing.value] + offers;
      FreshLeft(found.value, existing.value, offers);
    } else {
      assert Candidates(self, from, us, k, existing) == offers;
      if offers != [] {
        var i :| FirstShortestAt(i, found.value, offers);
        assert !found.value.isStale && Core(found.value).isStale == found.value.isStale;
      }
    }
  }

  /** Items of other keys leave a key alone. */
  lemma {:induction false} OffersNone(self: string, from: PeerInfo, us: seq<UpdateItem>, k: RouteKey)
    requires forall u :: u in us ==> ItemKey(u) != k
    ensures Offers(self, from, us, k) == [] && !Withdraws(us, k)
  {
    if |us| > 0 {
      OffersNone(self, from, us[1..], k);
    }
  }

  // -------------------------------------------------------------------------
  // Filtering
  // -------------------------------------------------------------------------

  /** A key whose name passes the filter ends as it would without the filter. */
  lemma {:induction false} KeptKey(self: string, from: PeerInfo, us: seq<UpdateItem>, names: set<string>, xs: seq<InternalRoute>, ys: seq<InternalRoute>, k: RouteKey)
    requires k.name in names && CoreAt(xs, k) == CoreAt(ys, k)
    ensures CoreAt(ItemLoop(self, from, Within(RouteName, us, names), xs).routes, k) == CoreAt(ItemLoop(self, from, us, ys).routes, k)
    decreases us
  {
    if |us| > 0 {
      var y := ItemStep(self, from, us[0], ys).routes;
      if RouteName(us[0]) in names {
        var kept := Within(RouteName, us[1..], names);
        assert ([us[0]] + kept)[1..] == kept;
        StepHeld(self, from, us[0], xs, ys, k);
        KeptKey(self, from, us[1..], names, ItemStep(self, from, us[0], xs).routes, y, k);
      } else {
        FindStep(self, from, us[0], ys, k);
        KeptKey(self, from, us[1..], names, xs, y, k);
      }
    }
  }

  /** A key whose name does not pass stays as it was. */
  lemma DroppedKey(self: string, from: PeerInfo, us: seq<UpdateItem>, names: set<string>, xs: seq<InternalRoute>, k: RouteKey)
    requires k.name !in names
    ensures CoreAt(ItemLoop(self, from, Within(RouteName, us, names), xs).routes, k) == CoreAt(xs, k)
  {
    var kept := Within(RouteName, us, names);
    LoopSettles(self, from, kept, xs, k);
    OffersNone(self, from, kept, k);
    assert AfterWithdrawal(kept, k) == kept;
    LeavesAloneIff(Find(KeyOf, ItemLoop(self, from, kept, xs).routes, k), self, from, kept, k, Find(KeyOf, xs, k));
  }

  /** The items leave every key alone whose name is not among `names`. */
  ghost predicate LeavesOthersAlone(self: string, from: PeerInfo, us: seq<UpdateItem>, names: set<string>, xs: seq<InternalRoute>) {
    forall k: RouteKey :: k.name !in names ==> LeavesAlone(self, from, us, k, Find(KeyOf, xs, k))
  }

  lemma FilterAt(self: string, from: PeerInfo, us: seq<UpdateItem>, names: set<string>, xs: seq<InternalRoute>, k: RouteKey)
    ensures CoreAt(ItemLoop(self, from, Within(RouteName, us, names), xs).routes, k) == CoreAt(ItemLoop(self, from, us, xs).routes, k)
            <==> (k.name !in names ==> LeavesAlone(self, from, us, k, Find(KeyOf, xs, k)))
  {
    if k.name in names {
      KeptKey(self, from, us, names, xs, xs, k);
    } else {
      DroppedKey(self, from, us, names, xs, k);
      LoopSettles(self, from, us, xs, k);
      LeavesAloneIff(Find(KeyOf, ItemLoop(self, from, us, xs).routes, k), self, from, us, k, Find(KeyOf, xs, k));
    }
  }

  /** Filtered and unfiltered items leave the same holdings exactly when the items leave every dropped key alone. */
  lemma FilterMatters(self: string, from: PeerInfo, us: seq<UpdateItem>, names: set<string>, xs: seq<InternalRoute>)
    ensures SameHeld(ItemLoop(self, from, Within(RouteName, us, names), xs).routes, ItemLoop(self, from, us, xs).routes)
            <==> LeavesOthersAlone(self, from, us, names, xs)
  {
    var kept, all := ItemLoop(self, from, Within(RouteName, us, names), xs).routes, ItemLoop(self, from, us, xs).routes;
    forall k: RouteKey
      ensures CoreAt(kept, k) == CoreAt(all, k) <==> (k.name !in names ==> LeavesAlone(self, from, us, k, Find(KeyOf, xs, k)))
    {
      FilterAt(self, from, us, names, xs, k);
    }
  }

  // -------------------------------------------------------------------------
  // One journaled action
  // -------------------------------------------------------------------------

  /** The items of a journaled update leave every key alone whose name the policy rejects. */
  ghost predicate Harmless(cfg: NodeConfig, t: RouteTable, a: Action) {
    a.InternalProtocolUpdate? ==>
      forall k: RouteKey :: Rejects(cfg, t, a.info, a.items, k.name) ==> LeavesAlone(cfg.name, a.info, a.items, k, Find(KeyOf, t.internal, k))
  }

  function AllowedNames(cfg: NodeConfig, t: RouteTable, a: Action): set<string>
    requires a.InternalProtocolUpdate? && cfg.policy.RoutePolicy? && Find(PeerName, t.peers, a.info.name).Some?
  {
    set ch | ch in cfg.policy.canReceive(Find(PeerName, t.peers, a.info.name).value, ChannelsOf(a.items)) :: ch.name
  }

  lemma FilterIs(cfg: NodeConfig, t: RouteTable, a: Action)
    requires a.InternalProtocolUpdate? && cfg.policy.RoutePolicy? && Find(PeerName, t.peers, a.info.name).Some?
    ensures var kept := Within(RouteName, a.items, AllowedNames(cfg, t, a));
            ApplyInboundPolicy(cfg.policy, a, t) == if |kept| == 0 then None else Some(InternalProtocolUpdate(a.info, kept))
  {
  }

  lemma HarmlessIs(cfg: NodeConfig, t: RouteTable, a: Action)
    requires a.InternalProtocolUpdate? && cfg.policy.RoutePolicy? && Find(PeerName, t.peers, a.info.name).Some?
    ensures Harmless(cfg, t, a) <==> LeavesOthersAlone(cfg.name, a.info, a.items, AllowedNames(cfg, t, a), t.internal)
  {
    forall name ensures Rejects(cfg, t, a.info, a.items, name) <==> name !in AllowedNames(cfg, t, a) {}
  }

  /** Two updates from a known peer lead to the same holdings when their loops do. */
  lemma UpdatesCompared(self: string, info: PeerInfo, us: seq<UpdateItem>, vs: seq<UpdateItem>, t: RouteTable, clock: int)
    requires Find(PeerName, t.peers, info.name).Some?
    ensures var p, q := PlannedUpdate(self, info, us, t, clock), PlannedUpdate(self, info, vs, t, clock);
            && p.changed
            && (SameHoldings(p.next, q.next) <==> SameHeld(ItemLoop(self, info, us, t.internal).routes, ItemLoop(self, info, vs, t.internal).routes))
  {
    UpdatedRoutesAre(self, info, us, t, clock);
    UpdatedRoutesAre(self, info, vs, t, clock);
  }

  lemma FilteredPlan(cfg: NodeConfig, t: RouteTable, a: Action, clock: int)
    requires a.InternalProtocolUpdate? && cfg.policy.RoutePolicy? && Find(PeerName, t.peers, a.info.name).Some?
    requires ApplyInboundPolicy(cfg.policy, a, t).Some?
    ensures var p := Planned(cfg.name, ApplyInboundPolicy(cfg.policy, a, t).value, t, clock);
            p.changed && (SameHoldings(p.next, Planned(cfg.name, a, t, clock).next) <==> Harmless(cfg, t, a))
  {
    FilterIs(cfg, t, a);
    HarmlessIs(cfg, t, a);
    IsUpdatePlan(cfg.name, a, t, clock);
    IsUpdatePlan(cfg.name, ApplyInboundPolicy(cfg.policy, a, t).value, t, clock);
    KeptPlan(cfg.name, a.info, a.items, AllowedNames(cfg, t, a), t, clock);
  }

  lemma IsUpdatePlan(self: string, a: Action, t: RouteTable, clock: int)
    requires a.InternalProtocolUpdate?
    ensures Planned(self, a, t, clock) == PlannedUpdate(self, a.info, a.items, t, clock)
  {
  }

  lemma KeptPlan(self: string, info: PeerInfo, us: seq<UpdateItem>, names: set<string>, t: RouteTable, clock: int)
    requires Find(PeerName, t.peers, info.name).Some?
    ensures var p := PlannedUpdate(self, info, Within(RouteName, us, names), t, clock);
            p.changed && (SameHoldings(p.next, PlannedUpdate(self, info, us, t, clock).next) <==> LeavesOthersAlone(self, info, us, names, t.internal))
  {
    FilterMatters(self, info, us, names, t.internal);
    UpdatesCompared(self, info, Within(RouteName, us, names), us, t, clock);
  }

  lemma UnfilteredHarmless(cfg: NodeConfig, t: RouteTable, a: Action)
    requires !a.InternalProtocolUpdate? || !cfg.policy.RoutePolicy? || Find(PeerName, t.peers, a.info.name).None?
    ensures ApplyInboundPolicy(cfg.policy, a, t) == Some(a) && Harmless(cfg, t, a)
  {
  }

  /** Planning a journaled action as received on a table with the live holdings gives the live holdings exactly when the
      action is harmless. */
  lemma EntryReplays(cfg: NodeConfig, s: BusState, u: RouteTable, a: Action, clock: int, up: set<string>)
    requires Dispatched(cfg, s, a, clock, up).result.Success? && SameHoldings(s.table, u)
    requires WellFormed(cfg.name, s.table) && WellFormed(cfg.name, u)
    ensures SameHoldings(Dispatched(cfg, s, a, clock, up).state.table, Planned(cfg.name, a, u, clock).next) <==> Harmless(cfg, s.table, a)
  {
    var live, f := Dispatched(cfg, s, a, clock, up).state.table, ApplyInboundPolicy(cfg.policy, a, s.table).value;
    TableAfter(cfg, s, a, clock, up);
    var planned, asReceived, replayed := Planned(cfg.name, f, s.table, clock).next, Planned(cfg.name, a, s.table, clock).next, Planned(cfg.name, a, u, clock).next;
    SameButPortsHeld(live, planned);
    PlanIgnoresOrder(cfg.name, a, s.table, u, clock);
    if a.InternalProtocolUpdate? && cfg.policy.RoutePolicy? && Find(PeerName, s.table.peers, a.info.name).Some? {
      FilteredPlan(cfg, s.table, a, clock);
    } else {
      UnfilteredHarmless(cfg, s.table, a);
      SameHeldItself(planned);
    }
    Around(live, planned, asReceived, replayed);
  }

  lemma SameHeldItself(t: RouteTable)
    ensures SameHoldings(t, t)
  {
  }

  lemma Around(live: RouteTable, planned: RouteTable, asReceived: RouteTable, replayed: RouteTable)
    requires SameHoldings(live, planned) && SameHoldings(asReceived, replayed)
    ensures SameHoldings(live, replayed) <==> SameHoldings(planned, asReceived)
  {
    SameHoldingsSym(live, planned);
    SameHoldingsSym(asReceived, replayed);
    if SameHoldings(live, replayed) {
      SameHoldingsTrans(planned, live, replayed);
      SameHoldingsTrans(planned, replayed, asReceived);
    }
    if SameHoldings(planned, asReceived) {
      SameHoldingsTrans(live, planned, asReceived);
      SameHoldingsTrans(live, asReceived, replayed);
    }
  }

  // -------------------------------------------------------------------------
  // Recovery at every point of a run
  // -------------------------------------------------------------------------

  /** The clock readings at which the history was planned. */
  function OwnReadings(history: seq<Timed>): nat -> int {
    (i: nat) => if 1 <= i <= |history| then history[i - 1].clock else 0
  }

  /** What recovery would rebuild now, at the original readings. */
  function RecoveredNow(cfg: NodeConfig, n: Node): RouteTable {
    Recovered(cfg.name, n.log, OwnReadings(n.history))
  }

  lemma {:induction false} FromAppend(es: seq<Entry>, more: seq<Entry>, lo: nat)
    requires forall e :: e in more ==> e.seqNo >= lo
    ensures From(es + more, lo) == From(es, lo) + more
  {
    if |es| == 0 {
      assert es + more == more;
      FromNone(more, lo);
    } else {
      assert (es + more)[1..] == es[1..] + more;
      FromAppend(es[1..], more, lo);
    }
  }

  /** The two clocks read alike for every entry. */
  ghost predicate ReadAlike(es: seq<Entry>, clocks: nat -> int, clocks': nat -> int)
    decreases es
  {
    |es| > 0 ==> clocks(es[0].seqNo) == clocks'(es[0].seqNo) && ReadAlike(es[1..], clocks, clocks')
  }

  lemma {:induction false} ReplayAnother(self: string, es: seq<Entry>, more: seq<Entry>, t: RouteTable, clocks: nat -> int, clocks': nat -> int)
    requires ReadAlike(es, clocks, clocks')
    ensures ReplayEntries(self, es + more, t, clocks') == ReplayEntries(self, more, ReplayEntries(self, es, t, clocks), clocks')
    decreases es
  {
    if |es| == 0 {
      assert es + more == more;
    } else {
      assert (es + more)[1..] == es[1..] + more;
      ReplayAnother(self, es[1..], more, Planned(self, es[0].action, t, clocks(es[0].seqNo)).next, clocks, clocks');
    }
  }

  lemma TailNumbers(self: string, log: Log, history: seq<Timed>, e: Entry)
    requires LogShape(self, log, history) && e in log.entries
    ensures 1 <= e.seqNo <= |history|
  {
    var j :| 0 <= j < |log.entries| && log.entries[j] == e;
    assert e == EntryAt(self, history, |history| - |log.entries| + j);
  }

  lemma {:induction false} ReadingsAgree(history: seq<Timed>, x: Timed, es: seq<Entry>)
    requires forall y :: y in es ==> 1 <= y.seqNo <= |history|
    ensures ReadAlike(es, OwnReadings(history), OwnReadings(history + [x]))
    decreases es
  {
    if |es| > 0 {
      assert es[0] in es;
      assert (history + [x])[es[0].seqNo - 1] == history[es[0].seqNo - 1];
      ReadingsAgree(history, x, es[1..]);
    }
  }

  lemma ReplayEntry(self: string, e: Entry, t: RouteTable, clocks: nat -> int)
    ensures ReplayEntries(self, [e], t, clocks) == Planned(self, e.action, t, clocks(e.seqNo)).next
  {
    assert [e][1..] == [];
  }

  /** What recovery replays of a log that has grown. */
  lemma {:induction false} LongerTail(log: Log, more: seq<Entry>, longer: Log)
    requires forall e :: e in more ==> e.seqNo > ReplayFrom(log)
    requires longer.entries == log.entries + more && longer.snapshot == log.snapshot
    ensures ReplayFrom(longer) == ReplayFrom(log) && ReplayBase(longer) == ReplayBase(log)
    ensures From(longer.entries, ReplayFrom(log) + 1) == From(log.entries, ReplayFrom(log) + 1) + more
  {
    FromAppend(log.entries, more, ReplayFrom(log) + 1);
  }

  lemma {:induction false} RecoveredFrom(self: string, log: Log, es: seq<Entry>, clocks: nat -> int)
    requires es == From(log.entries, ReplayFrom(log) + 1)
    ensures Recovered(self, log, clocks) == ReplayEntries(self, es, ReplayBase(log), clocks)
  {
  }

  lemma {:induction false} RecoveredLonger(self: string, log: Log, more: seq<Entry>, longer: Log, clocks: nat -> int, clocks': nat -> int)
    requires forall e :: e in more ==> e.seqNo > ReplayFrom(log)
    requires longer.entries == log.entries + more && longer.snapshot == log.snapshot
    requires ReadAlike(From(log.entries, ReplayFrom(log) + 1), clocks, clocks')
    ensures Recovered(self, longer, clocks') == ReplayEntries(self, more, Recovered(self, log, clocks), clocks')
  {
    var es := From(log.entries, ReplayFrom(log) + 1);
    LongerTail(log, more, longer);
    RecoveredFrom(self, log, es, clocks);
    RecoveredFrom(self, longer, es + more, clocks');
    ReplayAnother(self, es, more, ReplayBase(log), clocks, clocks');
  }

  /** Journaling an action makes recovery plan it as received. */
  lemma RecoveredAppend(self: string, log: Log, history: seq<Timed>, x: Timed)
    requires LogShape(self, log, history)
    ensures Recovered(self, log.Append(x.action, self), OwnReadings(history + [x]))
            == Planned(self, x.action, Recovered(self, log, OwnReadings(history)), x.clock).next
  {
    var lo := ReplayFrom(log) + 1;
    forall y | y in From(log.entries, lo) ensures 1 <= y.seqNo <= |history| {
      FromMember(log.entries, lo, y);
      TailNumbers(self, log, history, y);
    }
    ReadingsAgree(history, x, From(log.entries, lo));
    assert (history + [x])[|history|] == x;
    var e := Entry(log.nextSeq, x.action, self);
    RecoveredLonger(self, log, [e], log.Append(x.action, self), OwnReadings(history), OwnReadings(history + [x]));
    ReplayEntry(self, e, Recovered(self, log, OwnReadings(history)), OwnReadings(history + [x]));
  }

  lemma NothingLater(self: string, log: Log, history: seq<Timed>, lo: nat)
    requires LogShape(self, log, history)
    ensures From(From(log.entries, lo), |history| + 1) == []
  {
    var es := From(From(log.entries, lo), |history| + 1);
    if |es| > 0 {
      FromMember(From(log.entries, lo), |history| + 1, es[0]);
      FromMember(log.entries, lo, es[0]);
      TailNumbers(self, log, history, es[0]);
    }
  }

  /** Compaction either changes nothing or makes recovery start from the live table. */
  lemma RecoveredCompact(self: string, n: Node, minEntries: nat, tailSize: nat, clocks: nat -> int)
    requires LogShape(self, n.log, n.history)
    ensures var log := CompactedLog(n.log, n.bus.table, minEntries, tailSize);
            log == n.log || Recovered(self, log, clocks) == n.bus.table
  {
    CompactShape(self, n.log, n.history, n.bus.table, minEntries, tailSize);
    NothingLater(self, n.log, n.history, MaxOf(1, |n.history| - tailSize + 1));
  }

  /** What holds at every point of a run, whether or not recovery is faithful there. */
  ghost predicate Sane(cfg: NodeConfig, n: Node) {
    LogShape(cfg.name, n.log, n.history) && WellFormed(cfg.name, n.bus.table) && WellFormed(cfg.name, RecoveredNow(cfg, n))
  }

  ghost predicate Faithful(cfg: NodeConfig, n: Node) { SameHoldings(n.bus.table, RecoveredNow(cfg, n)) }

  /** One event: harmless unless it journals an update whose rejected items would have mattered. */
  ghost predicate HarmlessEvent(cfg: NodeConfig, n: Node, e: Event) {
    e.DispatchEvent? && Dispatched(cfg, n.bus, e.action, e.clock, e.up).result.Success? ==> Harmless(cfg, n.bus.table, e.action)
  }

  lemma DispatchFaithful(cfg: NodeConfig, n: Node, e: Event)
    requires Sane(cfg, n) && Faithful(cfg, n) && e.DispatchEvent?
    ensures Sane(cfg, Step(cfg, n, e)) && (Faithful(cfg, Step(cfg, n, e)) <==> HarmlessEvent(cfg, n, e))
  {
    var o := Dispatched(cfg, n.bus, e.action, e.clock, e.up);
    DispatchKeepsWellFormed(cfg, n.bus, e.action, e.clock, e.up);
    if o.result.Success? {
      AppendShape(cfg.name, n.log, n.history, At(e.action, e.clock));
      RecoveredAppend(cfg.name, n.log, n.history, At(e.action, e.clock));
      PlanKeepsWellFormed(cfg.name, e.action, RecoveredNow(cfg, n), e.clock);
      EntryReplays(cfg, n.bus, RecoveredNow(cfg, n), e.action, e.clock, e.up);
    } else {
      TableAfter(cfg, n.bus, e.action, e.clock, e.up);
    }
  }

  lemma CompactFaithful(cfg: NodeConfig, n: Node, minEntries: nat, tailSize: nat)
    requires Sane(cfg, n) && Faithful(cfg, n)
    ensures var n' := Step(cfg, n, CompactEvent(minEntries, tailSize)); Sane(cfg, n') && Faithful(cfg, n')
  {
    CompactShape(cfg.name, n.log, n.history, n.bus.table, minEntries, tailSize);
    RecoveredCompact(cfg.name, n, minEntries, tailSize, OwnReadings(n.history));
    SameHeldItself(n.bus.table);
  }

  /** Recovery at any point of the run would rebuild what the node holds there. */
  ghost predicate FaithfulThroughout(cfg: NodeConfig, n: Node, es: seq<Event>)
    decreases es
  {
    Faithful(cfg, n) && (|es| > 0 ==> FaithfulThroughout(cfg, Step(cfg, n, es[0]), es[1..]))
  }

  /** Every update the run journals is harmless where it happens. */
  ghost predicate HarmlessThroughout(cfg: NodeConfig, n: Node, es: seq<Event>)
    decreases es
  {
    |es| > 0 ==> HarmlessEvent(cfg, n, es[0]) && HarmlessThroughout(cfg, Step(cfg, n, es[0]), es[1..])
  }

  lemma {:induction false} FaithfulIffHarmless(cfg: NodeConfig, n: Node, es: seq<Event>)
    requires Sane(cfg, n) && Faithful(cfg, n)
    ensures FaithfulThroughout(cfg, n, es) <==> HarmlessThroughout(cfg, n, es)
    decreases es
  {
    if |es| > 0 {
      match es[0] {
        case DispatchEvent(_, _, _) => DispatchFaithful(cfg, n, es[0]);
        case CompactEvent(minEntries, tailSize) => CompactFaithful(cfg, n, minEntries, tailSize);
      }
      if HarmlessEvent(cfg, n, es[0]) {
        FaithfulIffHarmless(cfg, Step(cfg, n, es[0]), es[1..]);
      }
    }
  }

  lemma BootedIsSane(cfg: NodeConfig, pool: Option<Pool>)
    ensures Sane(cfg, Booted(pool)) && Faithful(cfg, Booted(pool))
  {
    SameHeldItself(EmptyTable);
  }

  /** Under any policy, over any dispatches and compactions: recovery at the original readings is faithful at every point,
      up to ports and the order of the learned routes, exactly when every journaled update leaves the keys alone whose
      names the policy rejects. */
  lemma PolicyRecoveryIff(cfg: NodeConfig, pool: Option<Pool>, es: seq<Event>)
    ensures FaithfulThroughout(cfg, Booted(pool), es) <==> HarmlessThroughout(cfg, Booted(pool), es)
  {
    BootedIsSane(cfg, pool);
    FaithfulIffHarmless(cfg, Booted(pool), es);
  }

  /** The policy rejects no name of any update that is journaled. */
  ghost predicate AdmitsThroughout(cfg: NodeConfig, n: Node, es: seq<Event>)
    decreases es
  {
    |es| > 0 ==>
      && (es[0].DispatchEvent? && es[0].action.InternalProtocolUpdate? ==>
            forall u :: u in es[0].action.items ==> !Rejects(cfg, n.bus.table, es[0].action.info, es[0].action.items, u.route.name))
      && AdmitsThroughout(cfg, Step(cfg, n, es[0]), es[1..])
  }

  lemma {:induction false} AdmittedIsHarmless(cfg: NodeConfig, n: Node, es: seq<Event>)
    requires AdmitsThroughout(cfg, n, es)
    ensures HarmlessThroughout(cfg, n, es)
    decreases es
  {
    if |es| > 0 {
      if es[0].DispatchEvent? && es[0].action.InternalProtocolUpdate? {
        var a := es[0].action;
        forall k: RouteKey | Rejects(cfg, n.bus.table, a.info, a.items, k.name)
          ensures LeavesAlone(cfg.name, a.info, a.items, k, Find(KeyOf, n.bus.table.internal, k))
        {
          OffersNone(cfg.name, a.info, a.items, k);
          assert AfterWithdrawal(a.items, k) == a.items;
        }
      }
      AdmittedIsHarmless(cfg, Step(cfg, n, es[0]), es[1..]);
    }
  }

  /** A policy that rejects nothing it is shown, or none at all, costs recovery nothing. */
  lemma AdmittingPolicyRecovers(cfg: NodeConfig, pool: Option<Pool>, es: seq<Event>)
    requires AdmitsThroughout(cfg, Booted(pool), es)
    ensures FaithfulThroughout(cfg, Booted(pool), es)
  {
    AdmittedIsHarmless(cfg, Booted(pool), es);
    PolicyRecoveryIff(cfg, pool, es);
  }

  // -------------------------------------------------------------------------
  // A run that recovery falsifies
  // -------------------------------------------------------------------------

  /** A policy that turns away channels of one name. */
  function TurnAway(name: string): Policy {
    RoutePolicy((p: PeerRecord, r: InternalRoute) => true, (p: PeerRecord, chs: seq<DataChannel>) => Without(ChannelName, chs, {name}))
  }

  /** A peer is configured and sends one update with a welcome and an unwelcome route. */
  function MixedUpdate(info: PeerInfo, good: UpdateItem, bad: UpdateItem, c: int): seq<Event> {
    [DispatchEvent(LocalPeerCreate(info), c, {})] + ([DispatchEvent(InternalProtocolUpdate(info, [good, bad]), c, {})] + [])
  }

  lemma OnlyGoodPasses(cfg: NodeConfig, t: RouteTable, info: PeerInfo, good: UpdateItem, bad: UpdateItem)
    requires cfg.policy == TurnAway(bad.route.name) && Find(PeerName, t.peers, info.name).Some? && good.route.name != bad.route.name
    ensures var a := InternalProtocolUpdate(info, [good, bad]);
            good.route.name in AllowedNames(cfg, t, a) && bad.route.name !in AllowedNames(cfg, t, a)
            && ApplyInboundPolicy(cfg.policy, a, t).Some?
  {
    var us, a := [good, bad], InternalProtocolUpdate(info, [good, bad]);
    var allowed := cfg.policy.canReceive(Find(PeerName, t.peers, info.name).value, ChannelsOf(us));
    assert allowed == Without(ChannelName, ChannelsOf(us), {bad.route.name});
    assert ChannelsOf(us)[0] == good.route && ChannelsOf(us)[0] in ChannelsOf(us);
    assert good.route in allowed;
    FilterIs(cfg, t, a);
    assert good in us;
    assert good in Within(RouteName, us, AllowedNames(cfg, t, a));
  }

  lemma BadIsOffered(self: string, info: PeerInfo, good: UpdateItem, bad: UpdateItem)
    requires good.verb.Add? && bad.verb.Add? && good.route.name != bad.route.name && self !in bad.nodePath
    ensures !LeavesAlone(self, info, [good, bad], ItemKey(bad), None)
  {
    var us, k := [good, bad], ItemKey(bad);
    assert us[1..] == [bad] && [bad][1..] == [];
    assert Offers(self, info, [bad], k) == [Learned(info, bad)];
    assert Offers(self, info, us, k) == Offers(self, info, [bad], k);
    assert !Withdraws(us, k);
  }

  lemma MixedStep(cfg: NodeConfig, n: Node, info: PeerInfo, good: UpdateItem, bad: UpdateItem, c: int)
    requires cfg.policy == TurnAway(bad.route.name) && Find(PeerName, n.bus.table.peers, info.name).Some? && n.bus.table.internal == []
    requires good.verb.Add? && bad.verb.Add? && good.route.name != bad.route.name && cfg.name !in bad.nodePath
    ensures var a := InternalProtocolUpdate(info, [good, bad]);
            Dispatched(cfg, n.bus, a, c, {}).result.Success? && !Harmless(cfg, n.bus.table, a)
  {
    var a, t := InternalProtocolUpdate(info, [good, bad]), n.bus.table;
    OnlyGoodPasses(cfg, t, info, good, bad);
    FilteredPlan(cfg, t, a, c);
    TableAfter(cfg, n.bus, a, c, {});
    HarmlessIs(cfg, t, a);
    BadIsOffered(cfg.name, info, good, bad);
    assert Find(KeyOf, t.internal, ItemKey(bad)) == None;
  }

  lemma RunOne(cfg: NodeConfig, n: Node, e: Event, es: seq<Event>)
    ensures Run(cfg, n, [e] + es) == Run(cfg, Step(cfg, n, e), es)
    ensures FaithfulThroughout(cfg, n, [e] + es) <==> Faithful(cfg, n) && FaithfulThroughout(cfg, Step(cfg, n, e), es)
  {
    assert ([e] + es)[1..] == es;
  }

  /** The run is journaled in full, and recovery holds the route the policy turned away. */
  lemma RejectedRouteReturns(cfg: NodeConfig, info: PeerInfo, good: UpdateItem, bad: UpdateItem, c: int)
    requires cfg.policy == TurnAway(bad.route.name) && !LacksToken(LocalPeerCreate(info))
    requires good.verb.Add? && bad.verb.Add? && good.route.name != bad.route.name && cfg.name !in bad.nodePath
    ensures var n := Run(cfg, Booted(None), MixedUpdate(info, good, bad, c));
            && |n.history| == 2 && n.history[1] == At(InternalProtocolUpdate(info, [good, bad]), c)
            && CoreAt(n.bus.table.internal, ItemKey(bad)) == None
            && CoreAt(RecoveredNow(cfg, n).internal, ItemKey(bad)) == Some(Core(Learned(info, bad)))
  {
    var e1, e2 := DispatchEvent(LocalPeerCreate(info), c, {}), DispatchEvent(InternalProtocolUpdate(info, [good, bad]), c, {});
    var n0, k := Booted(None), ItemKey(bad);
    var n1 := Step(cfg, n0, e1);
    RunOne(cfg, n0, e1, [e2] + []);
    RunOne(cfg, n1, e2, []);
    ConfiguredPeer(cfg, info, c);
    MixedStep(cfg, n1, info, good, bad, c);
    MixedTables(cfg, n1, info, good, bad, c);
  }

  lemma ConfiguredPeer(cfg: NodeConfig, info: PeerInfo, c: int)
    requires !LacksToken(LocalPeerCreate(info))
    ensures var n := Step(cfg, Booted(None), DispatchEvent(LocalPeerCreate(info), c, {}));
            && Sane(cfg, n) && Faithful(cfg, n) && |n.history| == 1
            && Find(PeerName, n.bus.table.peers, info.name).Some? && n.bus.table.internal == []
  {
    BootedIsSane(cfg, None);
    DispatchFaithful(cfg, Booted(None), DispatchEvent(LocalPeerCreate(info), c, {}));
  }

  /** What a filtered update leaves under a key. */
  lemma FilteredHeld(cfg: NodeConfig, s: BusState, a: Action, clock: int, up: set<string>, k: RouteKey)
    requires a.InternalProtocolUpdate? && cfg.policy.RoutePolicy? && Find(PeerName, s.table.peers, a.info.name).Some?
    requires ApplyInboundPolicy(cfg.policy, a, s.table).Some?
    ensures CoreAt(Dispatched(cfg, s, a, clock, up).state.table.internal, k)
            == CoreAt(ItemLoop(cfg.name, a.info, Within(RouteName, a.items, AllowedNames(cfg, s.table, a)), s.table.internal).routes, k)
  {
    var f := ApplyInboundPolicy(cfg.policy, a, s.table).value;
    TableAfter(cfg, s, a, clock, up);
    FilterIs(cfg, s.table, a);
    var next := PlannedUpdate(cfg.name, a.info, f.items, s.table, clock).next;
    assert Planned(cfg.name, f, s.table, clock).next == next;
    SameButPortsHeld(Dispatched(cfg, s, a, clock, up).state.table, next);
    UpdatedRoutesAre(cfg.name, a.info, f.items, s.table, clock);
  }

  /** The live side: the turned away key stays empty. */
  lemma MixedLive(cfg: NodeConfig, s: BusState, info: PeerInfo, good: UpdateItem, bad: UpdateItem, c: int)
    requires cfg.policy == TurnAway(bad.route.name) && Find(PeerName, s.table.peers, info.name).Some? && s.table.internal == []
    requires good.route.name != bad.route.name
    ensures CoreAt(Dispatched(cfg, s, InternalProtocolUpdate(info, [good, bad]), c, {}).state.table.internal, ItemKey(bad)) == None
  {
    var a := InternalProtocolUpdate(info, [good, bad]);
    OnlyGoodPasses(cfg, s.table, info, good, bad);
    FilteredHeld(cfg, s, a, c, {}, ItemKey(bad));
    DroppedKey(cfg.name, info, a.items, AllowedNames(cfg, s.table, a), [], ItemKey(bad));
  }

  /** The recovered side: the entry is planned as received. */
  lemma MixedReplayed(self: string, u: RouteTable, info: PeerInfo, good: UpdateItem, bad: UpdateItem, c: int)
    requires good.verb.Add? && bad.verb.Add? && good.route.name != bad.route.name && self !in bad.nodePath
    requires SameHeld(u.internal, [])
    ensures CoreAt(Planned(self, InternalProtocolUpdate(info, [good, bad]), u, c).next.internal, ItemKey(bad)) == Some(Core(Learned(info, bad)))
  {
    UpdatedRoutesAre(self, info, [good, bad], u, c);
    LoopHeld(self, info, [good, bad], u.internal, []);
    BadLearned(self, info, good, bad);
  }

  lemma MixedTables(cfg: NodeConfig, n: Node, info: PeerInfo, good: UpdateItem, bad: UpdateItem, c: int)
    requires cfg.policy == TurnAway(bad.route.name) && Find(PeerName, n.bus.table.peers, info.name).Some? && n.bus.table.internal == []
    requires good.verb.Add? && bad.verb.Add? && good.route.name != bad.route.name && cfg.name !in bad.nodePath
    requires Sane(cfg, n) && Faithful(cfg, n)
    requires Dispatched(cfg, n.bus, InternalProtocolUpdate(info, [good, bad]), c, {}).result.Success?
    ensures var n' := Step(cfg, n, DispatchEvent(InternalProtocolUpdate(info, [good, bad]), c, {}));
            && CoreAt(n'.bus.table.internal, ItemKey(bad)) == None
            && CoreAt(RecoveredNow(cfg, n').internal, ItemKey(bad)) == Some(Core(Learned(info, bad)))
  {
    var a := InternalProtocolUpdate(info, [good, bad]);
    MixedLive(cfg, n.bus, info, good, bad, c);
    RecoveredAppend(cfg.name, n.log, n.history, At(a, c));
    SameHoldingsSym(n.bus.table, RecoveredNow(cfg, n));
    MixedReplayed(cfg.name, RecoveredNow(cfg, n), info, good, bad, c);
  }

  lemma BadLearned(self: string, info: PeerInfo, good: UpdateItem, bad: UpdateItem)
    requires good.verb.Add? && bad.verb.Add? && good.route.name != bad.route.name && self !in bad.nodePath
    ensures Find(KeyOf, ItemLoop(self, info, [good, bad], []).routes, ItemKey(bad)) == Some(Learned(info, bad))
  {
    ItemLoopSnoc(self, info, [good], bad, []);
    assert [good] + [bad] == [good, bad] && [good][1..] == [];
    var mid := ItemLoop(self, info, [good], []).routes;
    assert mid == ItemStep(self, info, good, []).routes;
    FindStep(self, info, good, [], ItemKey(bad));
    FindStep(self, info, bad, mid, ItemKey(bad));
  }
}
