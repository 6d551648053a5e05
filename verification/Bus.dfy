/** The orchestrator bus as an object: it plans, allocates ports, commits, journals and sends. */
module Bus {
  import opened KeyedLists
  import opened RouteTypes
  import opened Journal
  import opened Rib
  import opened PortAllocator
  import opened BusSpec

  lemma {:induction false} ItemsForSnoc(cfg: NodeConfig, peer: PeerRecord, cs: seq<RouteChange>, c: RouteChange)
    ensures ItemsFor(cfg, peer, cs + [c]) == ItemsFor(cfg, peer, cs) + ItemFor(cfg, peer, c)
  {
    if |cs| == 0 {
      assert cs + [c] == [c] && [c][1..] == [];
    } else {
      assert (cs + [c])[1..] == cs[1..] + [c];
      ItemsForSnoc(cfg, peer, cs[1..], c);
    }
  }

  method BuildUpdatesForPeer(cfg: NodeConfig, peer: PeerRecord, changes: seq<RouteChange>) returns (items: seq<UpdateItem>)
    ensures items == ItemsFor(cfg, peer, changes)
  {
    items := [];
    for n := 0 to |changes|
      invariant items == ItemsFor(cfg, peer, changes[..n])
    {
      var change := changes[n];
      ItemsForSnoc(cfg, peer, changes[..n], change);
      assert changes[..n + 1] == changes[..n] + [change];
      match change.x {
        case OfPeer(r) =>
          if Via(r) != PeerName(peer) && PeerName(peer) !in r.nodePath {
            if change.Removed? || PolicyAllows(cfg, peer, r) {
              items := items + [UpdateItem(if change.Removed? then Remove else Add, ToDataChannel(r.ch, cfg),
                                           [cfg.name] + r.nodePath, r.originNode)];
            }
          }
        case OfLocal(ch) =>
          items := items + [UpdateItem(if change.Removed? then Remove else Add, ToDataChannel(ch, cfg), [cfg.name], cfg.name)];
      }
    }
    assert changes[..|changes|] == changes;
  }

  method FullTableFor(cfg: NodeConfig, peer: PeerRecord, t: RouteTable) returns (items: seq<UpdateItem>)
    ensures items == FullSync(cfg, peer, t)
  {
    items := [];
    for n := 0 to |t.local|
      invariant items == LocalItems(cfg, t.local[..n])
    {
      items := items + [AdvertisedLocal(cfg, Add, t.local[n])];
    }
    assert t.local[..|t.local|] == t.local;
    for n := 0 to |t.internal|
      invariant items + InternalItems(cfg, peer, t.internal[n..]) == FullSync(cfg, peer, t)
    {
      ghost var before, rest := items, InternalItems(cfg, peer, t.internal[n + 1..]);
      var r := t.internal[n];
      if !r.isStale && Via(r) != PeerName(peer) && PeerName(peer) !in r.nodePath && PolicyAllows(cfg, peer, r) {
        items := items + [Advertised(cfg, Add, r)];
      }
      assert t.internal[n..][1..] == t.internal[n + 1..];
      assert items + rest == before + ((if Syncable(cfg, peer, r) then [Advertised(cfg, Add, r)] else []) + rest);
    }
  }

  class OrchestratorBus {
    const cfg: NodeConfig
    const rib: RoutingInformationBase
    const allocator: Allocator?
    var lastKeepaliveSent: map<string, int>
    /** Everything the transport has delivered for this node, oldest first. */
    var outbox: seq<Send>

    constructor (cfg: NodeConfig, journal: InMemoryActionLog?, initial: RouteTable, allocator: Allocator?)
      ensures this.cfg == cfg && rib.nodeId == cfg.name && rib.journal == journal && this.allocator == allocator
      ensures fresh(rib) && rib.state == initial && lastKeepaliveSent == map[] && outbox == []
    {
      this.cfg := cfg;
      rib := new RoutingInformationBase(cfg.name, journal, initial);
      this.allocator := allocator;
      lastKeepaliveSent, outbox := map[], [];
    }

    function PoolNow(): Option<Pool>
      reads this, allocator
    {
      if allocator == null then None else Some(allocator.Contents())
    }

    function State(): BusState
      reads this, rib, allocator
    {
      BusState(rib.state, PoolNow(), lastKeepaliveSent)
    }

    /** Releases the port of `key`, if it has one. */
    method FreeKeyIn(ops: seq<PortOp>, key: string) returns (ops': seq<PortOp>)
      requires allocator != null
      modifies allocator
      ensures Ports(allocator.Contents(), ops') == FreeKey(Ports(old(allocator.Contents()), ops), key)
    {
      ops' := ops;
      var port := allocator.GetPort(key);
      if port.Some? {
        allocator.ReleasePort(key);
        ops' := ops' + [Released(key, port.value)];
      }
    }

    /** Phase 1: release the ports of removed routes, then the releases the plan asks for. */
    method ReleasePorts(plan: PlanResult) returns (ops: seq<PortOp>)
      requires allocator != null
      modifies allocator
      ensures Ports(allocator.Contents(), ops) == Freed(plan, old(allocator.Contents()))
    {
      ops := [];
      ghost var start := allocator.Contents();
      for n := 0 to |plan.changes|
        invariant FreeChanges(Ports(allocator.Contents(), ops), plan.changes[n..]) == FreeChanges(Ports(start, []), plan.changes)
      {
        assert plan.changes[n..][1..] == plan.changes[n + 1..];
        match plan.changes[n] {
          case Removed(OfLocal(ch)) => ops := FreeKeyIn(ops, ch.name);
          case Removed(OfPeer(r)) =>
            ops := FreeKeyIn(ops, r.ch.name);
            ops := FreeKeyIn(ops, EgressKeyOf(r));
          case _ =>
        }
      }
      for n := 0 to |plan.portOps|
        invariant Honour(Ports(allocator.Contents(), ops), plan.portOps[n..]) == Freed(plan, start)
      {
        assert plan.portOps[n..][1..] == plan.portOps[n + 1..];
        if plan.portOps[n].Released? {
          allocator.ReleasePort(plan.portOps[n].key);
          ops := ops + [plan.portOps[n]];
        }
      }
    }

    /** Phase 2: ports for local routes that have none. */
    method StampLocalRoutes(chs: seq<DataChannel>, ops0: seq<PortOp>)
      returns (channels: seq<DataChannel>, ops: seq<PortOp>, granted: map<string, int>)
      requires allocator != null
      modifies allocator
      ensures LocalStamp(channels, Ports(allocator.Contents(), ops), granted)
              == StampLocals(chs, LocalStamp([], Ports(old(allocator.Contents()), ops0), map[]))
    {
      channels, ops, granted := [], ops0, map[];
      ghost var goal := StampLocals(chs, LocalStamp([], Ports(allocator.Contents(), ops0), map[]));
      for n := 0 to |chs|
        invariant StampLocals(chs[n..], LocalStamp(channels, Ports(allocator.Contents(), ops), granted)) == goal
      {
        assert chs[n..][1..] == chs[n + 1..];
        var ch := chs[n];
        if Ported(ch) {
          channels := channels + [ch];
        } else {
          var port := allocator.AllocatePort(ch.name);
          if port.Some? {
            ops := ops + [Allocated(ch.name, port.value)];
            granted := granted[ch.name := port.value];
            channels := channels + [ch.(envoyPort := Some(port.value))];
          } else {
            channels := channels + [ch];
          }
        }
      }
    }

    /** Phase 3: a port for each internal route's egress key. */
    method StampInternalRoutes(rs: seq<InternalRoute>, ops0: seq<PortOp>)
      returns (routes: seq<InternalRoute>, ops: seq<PortOp>, egress: map<string, int>)
      requires allocator != null
      modifies allocator
      ensures EgressStamp(routes, Ports(allocator.Contents(), ops), egress)
              == StampEgresses(rs, EgressStamp([], Ports(old(allocator.Contents()), ops0), map[]))
    {
      routes, ops, egress := [], ops0, map[];
      ghost var goal := StampEgresses(rs, EgressStamp([], Ports(allocator.Contents(), ops0), map[]));
      for n := 0 to |rs|
        invariant StampEgresses(rs[n..], EgressStamp(routes, Ports(allocator.Contents(), ops), egress)) == goal
      {
        assert rs[n..][1..] == rs[n + 1..];
        var r := rs[n];
        var port := allocator.AllocatePort(EgressKeyOf(r));
        if port.Some? {
          if r.ch.envoyPort != Some(port.value) {
            ops := ops + [Allocated(EgressKeyOf(r), port.value)];
          }
          egress := egress[EgressKeyOf(r) := port.value];
          routes := routes + [WithPort(r, port.value)];
        } else {
          routes := routes + [r];
        }
      }
    }

    method PlanPortAllocations(plan: PlanResult) returns (r: PlanResult)
      modifies allocator
      ensures r == PlanPorts(plan, old(PoolNow()))
      ensures PoolNow() == PoolNext(plan, old(PoolNow()))
    {
      if allocator == null {
        return plan;
      }
      var ops := ReleasePorts(plan);
      var channels, opsLocal, granted := StampLocalRoutes(plan.next.local, ops);
      var routes, opsAll, egress := StampInternalRoutes(plan.next.internal, opsLocal);
      r := PlanResult(plan.prev, RouteTable(channels, plan.next.peers, routes), opsAll,
                      StampChanges(plan.changes, granted, egress), plan.changed);
    }

    method SendDeltas(connected: seq<PeerRecord>, changes: seq<RouteChange>, up: set<string>)
      modifies this`outbox
      ensures outbox == old(outbox) + FanOut(cfg, connected, changes, up)
    {
      ghost var start := outbox;
      for n := 0 to |connected|
        invariant outbox + FanOut(cfg, connected[n..], changes, up) == start + FanOut(cfg, connected, changes, up)
      {
        ghost var before, rest := outbox, FanOut(cfg, connected[n + 1..], changes, up);
        var items := BuildUpdatesForPeer(cfg, connected[n], changes);
        outbox := outbox + Post(up, PeerName(connected[n]), items);
        assert connected[n..][1..] == connected[n + 1..];
        assert outbox + rest == before + (Post(up, PeerName(connected[n]), items) + rest);
      }
    }

    method HandleBGPNotify(a: Action, plan: PlanResult, up: set<string>)
      modifies this`outbox
      ensures outbox == old(outbox) + Notified(cfg, a, plan, up)
    {
      var connected := ConnectedPeers(plan.next);
      if a.InternalProtocolConnected? {
        var peer := Find(PeerName, connected, a.info.name);
        if peer.Some? {
          var items := FullTableFor(cfg, peer.value, plan.next);
          outbox := outbox + Post(up, PeerName(peer.value), items);
        }
        return;
      }
      outbox := outbox + CloseNotice(a, plan.prev, up);
      if |plan.changes| > 0 {
        SendDeltas(connected, plan.changes, up);
      }
    }

    method HandleKeepalives(peers: seq<PeerRecord>, now: int, up: set<string>)
      modifies this`outbox, this`lastKeepaliveSent
      ensures lastKeepaliveSent == Remembered(old(lastKeepaliveSent), Needing(peers, old(lastKeepaliveSent), now), now, up)
      ensures outbox == old(outbox) + KeepalivesTo(Needing(peers, old(lastKeepaliveSent), now), up)
    {
      var names := Needing(peers, lastKeepaliveSent, now);
      ghost var sent0, out0 := lastKeepaliveSent, outbox;
      for n := 0 to |names|
        invariant Remembered(lastKeepaliveSent, names[n..], now, up) == Remembered(sent0, names, now, up)
        invariant outbox + KeepalivesTo(names[n..], up) == out0 + KeepalivesTo(names, up)
      {
        ghost var before, rest := outbox, KeepalivesTo(names[n + 1..], up);
        assert names[n..][1..] == names[n + 1..];
        if names[n] in up {
          outbox := outbox + [SendKeepalive(names[n])];
          lastKeepaliveSent := lastKeepaliveSent[names[n] := now];
        }
        assert outbox + rest == before + ((if names[n] in up then [SendKeepalive(names[n])] else []) + rest);
      }
    }

    /** Notifications, then keepalives if the action is a tick. */
    method HandlePostCommit(a: Action, plan: PlanResult, up: set<string>)
      modifies this`outbox, this`lastKeepaliveSent
      ensures outbox == old(outbox) + (Notified(cfg, a, plan, up) + KeepaliveSends(a, plan.next, old(lastKeepaliveSent), up))
      ensures lastKeepaliveSent == SentAfter(a, plan.next, old(lastKeepaliveSent), up)
    {
      HandleBGPNotify(a, plan, up);
      if a.Tick? {
        HandleKeepalives(plan.next.peers, a.now, up);
      }
    }

    /** Ports, commit with journaling, then everything that follows a commit. */
    method CarryOut(a: Action, ribPlan: PlanResult, up: set<string>)
      requires rib.nodeId == cfg.name && ribPlan.changed
      modifies this`outbox, this`lastKeepaliveSent, rib, rib.journal, allocator
      ensures var o := Carried(cfg, old(State()), a, ribPlan, up);
              State() == o.state && outbox == old(outbox) + o.sends
      ensures rib.journal != null ==> rib.journal.Contents() == old(rib.journal.Contents()).Append(a, cfg.name)
    {
      var plan := PlanPortAllocations(ribPlan);
      rib.Commit(plan, a);
      HandlePostCommit(a, plan, up);
    }

    /** One action through the pipeline, atomically. `up` are the peers the transport reaches. */
    method Dispatch(a: Action, clock: int, up: set<string>) returns (r: DispatchResult)
      requires rib.nodeId == cfg.name
      modifies this`outbox, this`lastKeepaliveSent, rib, rib.journal, allocator
      ensures var o := Dispatched(cfg, old(State()), a, clock, up);
              State() == o.state && outbox == old(outbox) + o.sends && r == o.result
      ensures rib.journal != null ==>
                rib.journal.Contents() == if r.Success? then old(rib.journal.Contents()).Append(a, cfg.name) else old(rib.journal.Contents())
    {
      if LacksToken(a) {
        return MissingPeerToken;
      }
      var filtered := ApplyInboundPolicy(cfg.policy, a, rib.state);
      if filtered.None? {
        return AllRoutesRejected;
      }
      var ribPlan := rib.Plan(filtered.value, rib.state, clock);
      if !ribPlan.changed {
        if a.Tick? {
          HandleKeepalives(rib.state.peers, a.now, up);
        }
        return NoStateChange;
      }
      CarryOut(a, ribPlan, up);
      return Success;
    }
  }
}
