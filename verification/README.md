# Catalyst routing: a verified model

This project models the v2 path-vector routing of the Catalyst orchestrator and proves what it keeps, over single
dispatches, whole runs of one node and whole runs of a network of nodes.

A node holds a route table: local channels, peer sessions and the routes learned from peers. A *routing information
base* plans the transition for each of twelve actions and commits it. The *bus* turns one dispatch into: token check,
inbound policy, plan, port release and allocation, commit with journaling, and the messages each connected peer is sent
(a full table when it has just connected, deltas otherwise, keepalives on ticks). Around it stand the *journal* with its
compaction and the recovery that reads it back, the *tick manager*, the *port allocator*, and on the Envoy side the
*xDS snapshot* builder, the *snapshot cache* and one state machine per *ADS stream*.

## How it is built

Everything the source updates in place is a class here (`InMemoryActionLog`, `RoutingInformationBase`, `Allocator`,
`OrchestratorBus`, `CompactionManager`, `TickManager`, `OrchestratorService`, `AdsStream`, `SnapshotCache`,
`EnvoyRpcServer`), and every loop that builds up a result is a method with a loop. Each method is proved equal to a
transition function on values (`Planned`, `WithPorts`, `Dispatched`, `CompactedLog`, `Recovered`, `Pushed`, ...). The
theorems are lemmas about those functions; runs are folds of them over a list of events.

| file | contents |
|---|---|
| `KeyedLists.dfy`, `RouteTypes.dfy` | keyed lists and their deltas; the entities of the routing layer |
| `Journal.dfy`, `Rib.dfy`, `RibTheorems.dfy`, `Runs.dfy` | the log, plan/commit, exact deltas and well-formedness, the update loop against a per-key specification, runs and the clock |
| `GracefulRestart.dfy`, `Sessions.dfy` | the stale-route window; negotiated hold times and hold-timer expiry over runs |
| `PeerHistory.dfy`, `RouteHistory.dfy`, `ChannelHistory.dfy` | what any run leaves of a peer's record, a learned route and a channel, read off its actions |
| `PortAllocator.dfy`, `BusSpec.dfy`, `Bus.dfy` | the port pool; one dispatch as a function and as an object |
| `PortErasure.dfy`, `Holdings.dfy`, `DispatchFacts.dfy` | ports and the order of learned routes never influence routing; what a dispatch commits and sends |
| `Messages.dfy`, `PortTrail.dfy` | everything a dispatch sends, item by item, and when; the port operations it reports |
| `Recovery.dfy`, `Compaction.dfy`, `RecoveryLimits.dfy` | compaction, recovery and how much of the journal is kept; recovery under other clock readings, and the ports of a restart |
| `Restarts.dfy`, `RestartClock.dfy`, `PolicyRecovery.dfy`, `RestartPorts.dfy` | repeated crashes; exactly when recovery after a restart, and recovery under an inbound policy, rebuild the live table; exactly when a restarted node hands a port out twice |
| `Network.dfy`, `Quiescence.dfy` | nodes and messages in flight: path vectors; messages always run out |
| `Flooding.dfy`, `Termination.dfy` | announcements converge to shortest paths, on every topology |
| `Stability.dfy`, `Retreat.dfy`, `Partition.dfy`, `Withdrawals.dfy` | closing sessions and deleting channels: what survives is right, and exactly when it is all there should be; a run in which it is not |
| `PortAgreement.dfy`, `PortDraws.dfy` | ports against the allocator; which port each key draws |
| `IncrementalSync.dfy`, `ViewExact.dfy` | deltas against full sync: coverage always, equality exactly when |
| `Keepalive.dfy`, `SessionLiveness.dfy` | keepalive timing at the sender, and what it does for the receiver's session |
| `XdsResources.dfy`, `EnvoyAgreement.dfy`, `ControlPlane.dfy` | xDS snapshots, their ports, the ADS stream, cache and server |

## Modelling decisions

- `Date.now()` is the argument `clock`; times are whole milliseconds.
- "Same object reference" as the mark of a no-op is the flag `changed` of a plan.
- The `Set` of free ports is a list without repetition in insertion order.
- Port keys are the source's own strings; `egress_..._via_...` is concatenated as there, and nothing assumes that two
  routes have different keys or that local names and keys differ, unless a row says so.
- A dispatch is one atomic step, which is what the action queue provides. Messages in flight form a multiset: they may be
  delivered in any order, and in the general network also lost.
- `up` is the set of peers whose transport accepts a message during a dispatch.
- The route policy is a pair of functions. The orchestrator service never configures one; where a result needs its
  absence the lemma says `NoPolicy`.
- Type URLs are a datatype; versions and nonces are numbers, whose decimal rendering on the wire is injective. URL parsing
  and IP detection are arbitrary total functions (`Resolver`).

## What the code does that its own texts do not say

- Updates are journaled as received, not as the inbound policy filtered them, so recovery can bring a rejected route
  back (`RejectedRouteReturns`; `PolicyRecoveryIff` says exactly when recovery stays faithful).
- Recovery plans each entry at the clock of the recovery, so a replayed tick can leave open a session it had closed
  (`LateClockRevives`; `RecoveryAfterRestart` says exactly when it follows the live run).
- A restarted node gets a fresh allocator even when its snapshot carries ports, and can hand one out twice
  (`RestartHandsOutAPortTwice`; `CreateAfterRestartSharesIff` says exactly when).
- A learned route that arrives carrying the very port it then draws here is allocated that port without an operation being
  reported; the reported operations are exact otherwise (`TrailIsExact`, `PortGoesUntold`).
- Removing a learned route also releases the port held under its bare name, which may be a local channel's
  (`AgreementExactly`, `ClashLosesPort`).
- The comment on the route configuration says a route's own `envoyPort` is the upstream peer's port; by the time it is
  pushed it has been overwritten by the local egress port (`RemoteClusterUsesEgressPort`, `AdvertisedPortReached`).
- What a peer has been told can exceed what a full sync would send it: a change to a route through the peer is not told to
  it, so an older path stays in its view, even after a withdrawal (`RouteLingers`), and a route marked stale is announced
  again although a full sync omits it (`StaleRouteLingers`). Coverage always holds (`DeltasCoverFullSync`); equality holds
  exactly as `DeltasAreFullSyncIff` says.
- A withdrawal removes a route whoever it was learned from, and a node keeps no alternatives, so after a session is closed
  for good a neighbour can lose the route it holds from the origin itself (`WithdrawalStrands`; `PartingIff` says exactly when).

## Model

| member | source | states |
|---|---|---|
| Rib.PlanInternalProtocolUpdate | packages/routing/src/v2/rib/rib.ts:406-479 | the loop over update items, with its four accumulators, computes the fold of one step per item, for any items and table |
| Rib.PlanTick | packages/routing/src/v2/rib/rib.ts:502-552 | the two loops over peers find exactly the expired sessions and the closed peers whose stale routes outlived their grace, close and purge them, and nothing otherwise |
| Rib.RoutingInformationBase.Plan | packages/routing/src/v2/rib/rib.ts:100-129 | each of the twelve actions is planned by its own handler and the table given is not changed |
| Rib.RoutingInformationBase.Commit | packages/routing/src/v2/rib/rib.ts:138-152 | committing installs the new table and journals the action exactly when the plan changed something |
| RibTheorems.PlanKeepsWellFormed | packages/routing/src/v2/rib/rib.ts:158-552 | every action keeps peer names, local names and (name, origin) keys distinct and keeps paths through this node out |
| RibTheorems.DeltasAreExact | packages/routing/src/v2/rib/rib.ts:100-552 | for all twelve actions, replaying the reported changes on the old table gives exactly the new one, order included; additions are of absent routes and updates of present ones; an unchanged plan reports nothing and releases nothing |
| RibTheorems.CloseReports | packages/routing/src/v2/rib/rib.ts:374-385 | the stale marks reported on a transport failure, replayed as updates, mark exactly the failed peer's routes in place |
| RibTheorems.RepeatIsIgnored | packages/routing/src/v2/rib/rib.ts:158-269 | creating or deleting a peer or a local route, or reporting the same health, a second time changes nothing |
| UpdateLoop.BatchesCompose | packages/routing/src/v2/rib/rib.ts:406-458 | one message with two batches gives the routes of two consecutive messages and the concatenation of their changes and releases |
| UpdateLoop.LoopSettles | packages/routing/src/v2/rib/rib.ts:414-458 | for each key, what the loop keeps is the first shortest among the fresh route held before (unless withdrawn) and the non-looping offers since the last withdrawal; a stale route loses to any offer |
| UpdateLoop.SettlesUniquely | packages/routing/src/v2/rib/rib.ts:414-458 | that specification has exactly one answer |
| UpdateLoop.RedeliveryIsHarmless | packages/routing/src/v2/rib/rib.ts:406-458 | delivering the same message a second time leaves every key as it was |
| UpdateLoop.AlternativesAreForgotten | packages/routing/src/v2/rib/rib.ts:432-457 | an offer no better than the fresh route held leaves no trace, so once that route is withdrawn nothing is held, although the offer stands |
| UpdateLoop.OtherKeysUntouched | packages/routing/src/v2/rib/rib.ts:414-458 | routes of keys a message does not mention keep their values and their order |
| Runs.ReplayKeepsWellFormed | packages/routing/src/v2/rib/rib.ts:100-144 | well-formedness holds after any run of actions |
| Runs.PlanIgnoresClock | packages/routing/src/v2/rib/rib.ts:310-358 | an action other than a tick decides, reports and routes alike whatever the clock reads; only the two time stamps of peers depend on it |
| Runs.RunIgnoresClock | packages/routing/src/v2/rib/rib.ts:310-496 | two executions of a tick-free run under different clocks make the same changed/unchanged decisions and end with equal tables up to those stamps |
| Runs.PurgedIff | packages/routing/src/v2/rib/rib.ts:503-532 | a tick purges a peer exactly when its hold time has run out and it is connected, or closed with stale routes |
| Runs.TickAbsorbs | packages/routing/src/v2/rib/rib.ts:502-552 | a tick absorbs every earlier tick: both in order give the table of the later one alone |
| Runs.TickSettles | packages/routing/src/v2/rib/rib.ts:502-552 | after a tick no connected peer is past its hold time and no closed, expired peer has a stale route; the same tick again changes nothing |
| PeerHistory.RecordAfterRun | packages/routing/src/v2/rib/rib.ts:158-372 | after any run that keeps the peer: it is connected exactly when the last of its opens, connects, closes and ticks past the hold time is an open or connect, closed when it is one of the others, otherwise as it began; its hold time, times of the last message and connect, and every configuration field are those given last |
| PeerHistory.HoldOfIsSmallest | packages/routing/src/v2/rib/rib.ts:310-358 | the hold time read there is the smallest offered since the last connect |
| PeerHistory.NewPeerBegins | packages/routing/src/v2/rib/rib.ts:158-178 | a new peer is Initializing with a hold time of 90 s, never heard and never connected; nothing else changes |
| PeerHistory.KnownAfterRun | packages/routing/src/v2/rib/rib.ts:158-229 | after any run a peer is configured exactly when the last action to create or delete it created it |
| RouteHistory.UpdateBrings | packages/routing/src/v2/rib/rib.ts:414-458 | every route held after an update was held before and not withdrawn by it, or comes from one of its advertisements with channel, sender, path and origin as received, fresh and not a loop |
| RouteHistory.OffersAreBrought | packages/routing/src/v2/rib/rib.ts:416-430 | the offers weighed per key are exactly the routes so brought |
| RouteHistory.OfferLeavesRoute | packages/routing/src/v2/rib/rib.ts:432-445 | an offer that is no loop and whose key is not withdrawn in the message leaves a fresh route at least as short |
| RouteHistory.OthersLeave | packages/routing/src/v2/rib/rib.ts:204-552 | every other action leaves exactly the routes it does not drop: deletion and hard close of a known peer drop its routes, a transport failure marks them stale, a tick drops those of peers timed out |
| RouteHistory.RoutesHaveHistory | packages/routing/src/v2/rib/rib.ts:360-479 | every route held after any run was there at the start or was brought by an update of the run; nothing has withdrawn its key since, and it is stale only through a transport failure since |
| RouteHistory.ChangesWhen | packages/routing/src/v2/rib/rib.ts:158-552 | for all twelve actions, when the plan counts as a change |
| ChannelHistory.ChannelAfterRun | packages/routing/src/v2/rib/rib.ts:231-303 | after any run a channel is there exactly when it was created where there was none, or was there at the start, and not deleted since; it is as created, with the health last reported |
| GracefulRestart.GraceKeepsRoutes | packages/routing/src/v2/rib/rib.ts:374-385 | after a transport failure, in any run without a message from the peer, its route survives as stale until the deadline unless another peer withdraws or offers (without a loop) its key, the peer is deleted or a hard close comes |
| GracefulRestart.GraceEnds | packages/routing/src/v2/rib/rib.ts:518-545 | the first tick past lastReceived + holdTime leaves no route via the silent peer, and none comes back |
| Sessions.HoldTimeIsSmallestOffer | packages/routing/src/v2/rib/rib.ts:310-358 | after any run that keeps the peer, its hold time is the smallest offered since the last connect, starting from the default (or from its value, without a connect) |
| Sessions.SessionStaysUp | packages/routing/src/v2/rib/rib.ts:460-512 | a peer heard (by update or keepalive) within the hold time before every tick stays connected, with the clock of its last message on record |
| Sessions.SilentSessionEnds | packages/routing/src/v2/rib/rib.ts:505-545 | a tick past the hold time closes the session and removes every route via it |
| Journal.FromMember | packages/routing/src/v2/journal/in-memory-action-log.ts:26-50 | they select exactly the entries numbered at or above the bound |
| Journal.InMemoryActionLog.Append | packages/routing/src/v2/journal/in-memory-action-log.ts:15-24 | an entry goes last, under the next number, which is returned and advanced |
| Journal.FromOrdered | packages/routing/src/v2/journal/in-memory-action-log.ts:26-50 | they keep the numbering in order, so with membership the selection is determined |
| Journal.InMemoryActionLog.Replay | packages/routing/src/v2/journal/in-memory-action-log.ts:26-28 | returns exactly the entries numbered above the argument, each once and in increasing order; the log is untouched |
| Journal.InMemoryActionLog.LastSeq | packages/routing/src/v2/journal/in-memory-action-log.ts:30-32 | the largest number of an entry still held; 0 exactly when the log is empty |
| Journal.InMemoryActionLog.TakeSnapshot | packages/routing/src/v2/journal/in-memory-action-log.ts:34-40 | replaces the snapshot and nothing else |
| Journal.InMemoryActionLog.Prune | packages/routing/src/v2/journal/in-memory-action-log.ts:46-50 | drops exactly the entries below a number and counts them; numbering goes on |
| PortAllocator.Expand | apps/envoy/src/port-allocator.ts:26-39 | a port is in the expansion exactly when some configured entry covers it |
| PortAllocator.ExpandPortRange | apps/envoy/src/port-allocator.ts:26-39 | the nested loops produce the entries' ports in configuration order |
| PortAllocator.Allocator.constructor | apps/envoy/src/port-allocator.ts:48-63 | the pool after loading the range and reserving recorded allocations in order |
| PortAllocator.Allocator.AllocatePort | apps/envoy/src/port-allocator.ts:66-85 | a key that has a port keeps it; otherwise it gets the oldest free port, or none when the pool is empty |
| PortAllocator.Allocator.ReleasePort | apps/envoy/src/port-allocator.ts:87-92 | the key's port goes to the back of the queue; an unknown key changes nothing |
| PortAllocator.RehydratePartitions | apps/envoy/src/port-allocator.ts:56-63 | recorded allocations that are out of range or repeat a port are dropped; free and taken ports still partition the range and no two keys share one |
| PortAllocator.CreatedPartitions | apps/envoy/src/port-allocator.ts:48-63 | a new allocator partitions the expanded range, whatever allocations it is given |
| PortAllocator.RecordsSurvive | apps/envoy/src/port-allocator.ts:56-63 | a recorded allocation is taken over exactly when its port is in range and no earlier record has it; nothing else is allocated |
| PortAllocator.CreatedInOrder | apps/envoy/src/port-allocator.ts:48-63 | the ports left free are handed out in the order of the configuration |
| PortAllocator.CallsConserve | apps/envoy/src/port-allocator.ts:66-92 | over any calls the partition holds, allocation stays injective, and the pool is a queue: ports leave in the order of those free at the start followed by those returned |
| PortAllocator.ReuseWaitsItsTurn | apps/envoy/src/port-allocator.ts:73-92 | a released port is reissued only after every port free at its release has been issued |
| Bus.BuildUpdatesForPeer | apps/orchestrator/src/v2/bus.ts:641-687 | the loop yields, in order, one item per change that may be told to the peer: split horizon, loop guard, and policy for non-removals |
| Bus.FullTableFor | apps/orchestrator/src/v2/bus.ts:533-571 | the full table for a peer: every local channel, then every fresh learned route that may pass to it |
| Bus.OrchestratorBus.ReleasePorts | apps/orchestrator/src/v2/bus.ts:409-436 | phase 1: the ports of removed routes, bare names included, then the releases the plan asks for |
| Bus.OrchestratorBus.StampLocalRoutes | apps/orchestrator/src/v2/bus.ts:438-448 | phase 2: channels without a port get one while the pool lasts, in table order |
| Bus.OrchestratorBus.StampInternalRoutes | apps/orchestrator/src/v2/bus.ts:450-461 | phase 3: every learned route carries its egress key's port while the pool lasts |
| Bus.OrchestratorBus.PlanPortAllocations | apps/orchestrator/src/v2/bus.ts:402-493 | all phases together stamp the new table and the change report, and leave the plan alone without an allocator |
| PortTrail.PlanReleases | packages/routing/src/v2/rib/rib.ts:204-552 | every action asks for exactly one release per reported removal of a ported route, in order |
| PortTrail.ReleasesReported | apps/orchestrator/src/v2/bus.ts:409-436 | every release the plan asks for is reported, and any other that is reported names a key that was held and the port it had |
| PortTrail.TrailIsExact | apps/orchestrator/src/v2/bus.ts:402-493 | following the reported operations gives the allocations as they are if and only if no new egress key draws a port that every route of that key carries already; what the trail says is right in any case |
| PortTrail.PortGoesUntold | apps/orchestrator/src/v2/bus.ts:450-461 | on a fresh node a route that arrives with the first free port gets it and nothing is reported |
| PortTrail.RemovalsUnstamped | apps/orchestrator/src/v2/bus.ts:472-490 | removed routes are reported as they were, port included |
| Bus.OrchestratorBus.HandleBGPNotify | apps/orchestrator/src/v2/bus.ts:282-351 | a connect sends the peer concerned the full table and nobody else anything; otherwise a deletion notice, then deltas to every connected peer with something to tell |
| Bus.OrchestratorBus.HandleKeepalives | apps/orchestrator/src/v2/bus.ts:608-635 | keepalives go to the connected peers whose last one is more than a third of the hold time old, and only successful sends are remembered |
| Bus.OrchestratorBus.Dispatch | apps/orchestrator/src/v2/bus.ts:126-214 | one action through validation, policy, plan, ports, commit, journal, notification and keepalives; the journal grows exactly on success |
| PortErasure.StampingKeepsRoutes | apps/orchestrator/src/v2/bus.ts:402-493 | port planning changes ports and nothing else: same routes, same peers, same report up to ports |
| PortErasure.PlanIgnoresPorts | packages/routing/src/v2/rib/rib.ts:100-129 | every action decides alike on tables that differ in ports alone, and keeps them so |
| DispatchFacts.TableAfter | apps/orchestrator/src/v2/bus.ts:136-186 | what a dispatch commits is the plan of the admitted action up to ports; it succeeds exactly when that plan changes something |
| DispatchFacts.DispatchKeepsWellFormed | apps/orchestrator/src/v2/bus.ts:126-186 | well-formedness survives every dispatch under any policy, port stamping included |
| DispatchFacts.UpdatesSent | apps/orchestrator/src/v2/bus.ts:282-351 | every update message goes to a peer connected in the committed table and is its full sync or its deltas |
| DispatchFacts.ChangeTold | apps/orchestrator/src/v2/bus.ts:641-687 | every change reaches every connected, reachable peer it did not come from or pass through |
| DispatchFacts.SentTells | apps/orchestrator/src/v2/bus.ts:641-687 | conversely, every item sent tells of a change of this plan |
| Messages.DeltaIsChange | apps/orchestrator/src/v2/bus.ts:641-687 | under any policy: every item of a delta goes to a connected, reachable peer and describes a change that may be told to it, the channel as committed in every field, port included, but with the node's own Envoy address where it has one |
| Messages.ChangeIsDelta | apps/orchestrator/src/v2/bus.ts:641-687 | and every change that may be told to such a peer is so described to it |
| Messages.SyncIsTable | apps/orchestrator/src/v2/bus.ts:533-571 | every item of a full sync describes, in the same terms, a channel of the node or a fresh learned route that may be told |
| Messages.ChannelIsSynced | apps/orchestrator/src/v2/bus.ts:533-546 | every channel of the node is described to a new session |
| Messages.RouteIsSynced | apps/orchestrator/src/v2/bus.ts:548-571 | and so is every fresh learned route that may be told |
| Messages.ClosesSent | apps/orchestrator/src/v2/bus.ts:309-321 | a close notice goes out exactly when a configured, reachable peer is deleted, with the normal code |
| Messages.ResultIs | apps/orchestrator/src/v2/bus.ts:134-165 | when a dispatch is refused for its token or by the policy; a refused or idle dispatch changes neither table nor pool and sends no update |
| Recovery.CompactionManager.Compact | apps/orchestrator/src/v2/compaction.ts:82-126 | on a numbered journal it is skipped exactly when no entry is numbered minEntries or more above the snapshot; otherwise the live table is snapshotted at the newest number and exactly the entries less than tailSize below it are kept |
| Compaction.TailAfterRun | apps/orchestrator/src/v2/compaction.ts:93-109 | after any run with fixed settings, under any policy, the journal holds exactly the newest actions: all before the first compaction, then those since the snapshot and the tailSize before it |
| Compaction.CompactionBounds | apps/orchestrator/src/v2/compaction.ts:93-109 | right after a compaction event fewer than minEntries actions (at least none) and tailSize more are held |
| Recovery.Recover | apps/orchestrator/src/v2/service.ts:101-131 | the constructor's restore-and-replay loop computes the snapshot table with the later entries planned on it |
| Recovery.RunKeepsInv | apps/orchestrator/src/v2/compaction.ts:84-109 | through any dispatches and compactions the log holds the newest actions under consecutive numbers, the snapshot is the replay of the history up to its number, and nothing between them is lost |
| Recovery.RecoveryIsFaithful | apps/orchestrator/src/v2/service.ts:101-131 | after any interleaving of dispatches and compactions, any minEntries and tailSize, recovery with the same clock readings equals the replay of everything ever journaled and the live table, up to ports |
| Restarts.CrashesAreInvisible | apps/orchestrator/src/v2/service.ts:101-156 | a node that crashes and restarts any number of times, each time with its journal, a new allocator and the original readings, journals the same history as one that never crashed and holds the same table up to ports |
| RecoveryLimits.TickReproduced | packages/routing/src/v2/rib/rib.ts:502-552 | on tables equal up to time stamps a tick gives equal results if and only if it purges the same peers in both |
| RecoveryLimits.RunReproduced | packages/routing/src/v2/rib/rib.ts:310-552 | two executions under different clocks stay equal up to time stamps throughout if and only if every tick purges alike |
| RecoveryLimits.RecoveryAtAnyTime | apps/orchestrator/src/v2/service.ts:101-131 | under arbitrary clock readings recovery follows the live run throughout if and only if the replayed ticks purge alike, which they do when there are none after the snapshot; then it rebuilds the live routes and sessions, up to ports and stamps |
| RestartClock.LateRunReproduced | packages/routing/src/v2/rib/rib.ts:310-552 | an execution read later than every tick follows the first throughout if and only if no tick of the first purged a peer heard from since the start |
| RestartClock.RecoveryAfterRestart | apps/orchestrator/src/v2/service.ts:101-131 | when recovery reads its clock after every replayed tick, it follows the live run throughout if and only if no live tick after the snapshot purged a peer heard from since the snapshot; then it rebuilds the live routes and sessions |
| RecoveryLimits.LateClockRevives | apps/orchestrator/src/v2/service.ts:119-125 | a session the live node closed is open after recovery exactly when the recovery clock at the replayed connect puts the tick within the hold time |
| PolicyRecovery.RejectedRouteReturns | apps/orchestrator/src/v2/bus.ts:136-175 | a run of two journaled actions under a policy that turns one route away: the live table lacks the route, the recovered one holds it |
| PolicyRecovery.EntryReplays | apps/orchestrator/src/v2/bus.ts:136-175 | planning a journaled action as received gives the live holdings if and only if, for every key whose name the policy rejects, the received items leave that key as it is |
| PolicyRecovery.PolicyRecoveryIff | apps/orchestrator/src/v2/bus.ts:226-248 | under any policy, over any dispatches and compactions: recovery at the original readings is faithful at every point, up to ports and the order of learned routes, if and only if every journaled update is harmless in that sense |
| PolicyRecovery.AdmittingPolicyRecovers | apps/orchestrator/src/v2/bus.ts:226-248 | so a policy that admits every name of every update costs recovery nothing |
| Holdings.PlanIgnoresOrder | packages/routing/src/v2/rib/rib.ts:100-129 | every action decides alike on tables that hold the same routes in different order, and keeps them so |
| RestartPorts.FirstDispatchSharesIff | apps/orchestrator/src/v2/service.ts:142-156 | any action on a recovered table with a fresh allocator: two local channels then share a port if and only if one of the first m free ports is carried by a channel, m being the number of channels without a port |
| RestartPorts.CreateAfterRestartSharesIff | apps/orchestrator/src/v2/bus.ts:438-448 | for creating a channel the same condition in terms of the recovered table and the new channel alone, before the call |
| RecoveryLimits.RestartHandsOutAPortTwice | apps/orchestrator/src/v2/service.ts:142-156 | create, compact, restart, create: two local channels then carry the same port |
| Network.PlanGood | packages/routing/src/v2/rib/rib.ts:414-445 | planning keeps simple paths that start at the peer, end at the origin and avoid the holder, and reports only such |
| Network.AdvertisedGood | apps/orchestrator/src/v2/bus.ts:649-684 | what a node sends on about such a route is a simple path from itself to the origin that avoids the target |
| Network.ForgedIsRefused | apps/orchestrator/src/v2/rpc.ts:256-274 | an update with a path that does not start at its sender is refused whole |
| Network.StepKeepsPathVectors | apps/orchestrator/src/v2/bus.ts:126-214 | the path-vector invariant of tables and messages survives any action anywhere, any delivery and any loss, under any policy |
| Network.PathVectorsAlways | apps/orchestrator/src/v2/rpc.ts:256-282 | in every state of every network run without self-peering the invariant holds, so neither loop detection nor the sender check ever rejects a message these nodes built |
| Network.PathVectorsFromQuiet | apps/orchestrator/src/v2/rpc.ts:256-282 | in particular from empty tables with nothing in flight |
| Flooding.LoopImproves | packages/routing/src/v2/rib/rib.ts:432-445 | announcements only ever shorten routes, and afterwards what was offered is held at that length or less |
| Flooding.StepKeepsFlood | apps/orchestrator/src/v2/bus.ts:641-687 | the flooding invariant survives each announcement and delivery: every held path is backed hop by hop, and all a node knows its neighbours hold or are being told |
| Flooding.QuietIsConverged | packages/routing/src/v2/rib/rib.ts:414-445 | with nothing in flight a node holds an origin's route exactly when the origin announces it and can reach the node, and its path length is the hop distance |
| Flooding.OriginHoldsNone | packages/routing/src/v2/rib/rib.ts:416-417 | no node learns a route to its own channel |
| Flooding.FloodingConverges | apps/orchestrator/src/v2/bus.ts:641-687 | the same for every announcement run from fresh sessions, whatever order messages arrive in |
| Quiescence.MeasureDrops | packages/routing/src/v2/rib/rib.ts:414-458 | from any state with good paths, withdrawals included and under any policy, every delivery and every loss lowers the measure of stored routes and messages in flight |
| Quiescence.MessagesRunOut | apps/orchestrator/src/v2/bus.ts:649-684 | no run of deliveries and losses is longer than the measure of its start |
| Quiescence.ScaleExists | apps/orchestrator/src/v2/bus.ts:641-687 | every network has such a measure, so the bound always applies |
| Termination.DeliveriesConverge | apps/orchestrator/src/v2/bus.ts:641-687 | delivering in any order takes at most that many steps and, once nothing is left, ends in shortest paths everywhere |
| Termination.Drains | apps/orchestrator/src/v2/bus.ts:641-687 | some sequence of deliveries empties the network |
| Termination.AnnounceAndDrain | apps/orchestrator/src/v2/bus.ts:641-687 | at any point of an announcement run one more announcement can be carried to everyone, back to a quiet network in which the flooding invariant holds |
| Termination.AnyTopologyConverges | apps/orchestrator/src/v2/bus.ts:641-687 | on every topology an announcement made on fresh sessions can be carried through, and then another node holds the route exactly when the origin can reach it, at hop distance |
| Partition.SurvivorsAreRight | packages/routing/src/v2/rib/rib.ts:374-398 | from a converged network, any sessions closed for good at both ends, any channels deleted, everything delivered in any order: a route still held is still announced, its origin can still reach the holder, and its length is the hop distance in what is left |
| Partition.DeletedIsForgotten | packages/routing/src/v2/rib/rib.ts:247-267 | in such a run, after its origin deletes a channel nobody holds a route to it |
| Partition.PartingIff | packages/routing/src/v2/rib/rib.ts:386-398 | when one session is closed so, in any interleaving with the withdrawals, the routes for a key end up the shortest of the remaining network if and only if the channel is announced no more, or each end that held its route via the other can no longer be reached from the origin: a condition on the tables and sessions before the close |
| Partition.PartingCompletes | apps/orchestrator/src/v2/bus.ts:649-684 | in every converged network any session can be closed so and its withdrawals carried through |
| Withdrawals.WithdrawalStrands | packages/routing/src/v2/rib/rib.ts:446-457 | a run on a triangle: announce, deliver everything, close one session for good, deliver everything; nothing is in flight, yet a node still connected to the announcing origin holds no route |
| PortAgreement.PortsAgreeAfter | apps/orchestrator/src/v2/bus.ts:402-493 | after a dispatch every ported local channel, and every learned route whose key has a port, carries exactly the allocator's port, and no port is shared or lost |
| PortAgreement.AgreementExactly | apps/orchestrator/src/v2/bus.ts:413-436 | if no local channel is named like the egress key of a surviving route, ported local channels keep their ports in the allocator if and only if no removed learned route bears the name (or has it as egress key) of one that survives |
| PortAgreement.ClashLosesPort | apps/orchestrator/src/v2/bus.ts:413-436 | a run of a fresh node: create a channel, learn a route of its name, hear it withdrawn; the channel still carries its port, which the allocator no longer has for it |
| PortAgreement.LastChangeIsCommitted | apps/orchestrator/src/v2/bus.ts:472-490 | the last addition or update reported for a route is the route as committed, port included |
| PortAgreement.RunKeepsPorts | apps/orchestrator/src/v2/bus.ts:402-493 | agreement and partition hold after every dispatch of any run in which local routes arrive unported and names stay apart |
| PortAgreement.FreshNodeInOrder | apps/orchestrator/src/v2/service.ts:142-156 | an empty table and a new allocator agree |
| IncrementalSync.CoversFullSync | apps/orchestrator/src/v2/bus.ts:533-571 | a view that covers a table contains, with its current path, every item a full sync would send |
| IncrementalSync.DispatchCovered | apps/orchestrator/src/v2/bus.ts:282-351 | while the peer stays connected, hearing what a dispatch sends keeps its view covering the committed table |
| IncrementalSync.DeltasCoverFullSync | apps/orchestrator/src/v2/bus.ts:282-351 | everything sent since the connect folds to a view containing every route a full sync would advertise now, with its current path |
| ViewExact.ExactIsFullSync | apps/orchestrator/src/v2/bus.ts:533-571 | a view lists exactly what the table calls for, with its paths, if and only if it is the fold of a full sync |
| ViewExact.DispatchExactIff | apps/orchestrator/src/v2/bus.ts:282-351 | a view equal to the full sync stays equal through a dispatch if and only if, for every key reported, the last change is of a fresh route that may pass to the peer, or leaves the view without the key |
| ViewExact.DeltasAreFullSyncIff | apps/orchestrator/src/v2/bus.ts:282-351 | after a connect the view is the full sync, and it remains so after every later dispatch of the session if and only if each reports as above |
| ViewExact.RouteLingers | apps/orchestrator/src/v2/bus.ts:649-655 | from any state, by real updates: offered by another peer, taken over by a shorter offer of the peer itself, withdrawn; the peer still lists the first path after the takeover, when a full sync would not send it, and after the withdrawal, when the node holds nothing |
| ViewExact.RouteLingersFromFresh | apps/orchestrator/src/v2/bus.ts:649-655 | in particular from a fresh node: configure and connect the peer, then those three updates |
| ViewExact.StaleRouteLingers | apps/orchestrator/src/v2/bus.ts:548-556 | after a transport failure elsewhere the peer still lists the failed peer's route, which a full sync leaves out |
| Keepalive.MinActive | apps/orchestrator/src/v2/tick-manager.ts:43-46 | the smallest positive hold time, 0 when there is none |
| Keepalive.TickManager.Recalculate | apps/orchestrator/src/v2/tick-manager.ts:42-61 | the interval becomes a third of the smallest positive hold time, rounded down, and one second at least; it is left alone when there is none |
| Keepalive.OrchestratorService.Dispatch | apps/orchestrator/src/v2/service.ts:174-192 | a successful open or connect retunes the tick on the committed table; nothing else does |
| Keepalive.RunKeepsTickFits | apps/orchestrator/src/v2/service.ts:172-192 | after every dispatch of any run the interval is at most max(1000, h / 3) for every peer hold time h > 0 |
| Keepalive.DispatchKeepalives | apps/orchestrator/src/v2/bus.ts:144-151 | whether or not a tick changes the table, keepalives are decided on the table it commits; other actions send none |
| Keepalive.KeepaliveSentIff | apps/orchestrator/src/v2/bus.ts:608-635 | a keepalive is sent exactly on a tick, to a reachable connected peer with a hold time a third of which has passed, and remembered exactly then |
| Keepalive.RunSendsKeepalives | apps/orchestrator/src/v2/bus.ts:608-635 | over a run a connected peer is sent keepalives at exactly the ticks that find the last one more than a third of its hold time old |
| Keepalive.KeepalivesAreTimely | apps/orchestrator/src/v2/bus.ts:608-635 | with ticks at most a third of the hold time apart, the keepalives of a run come at most two thirds of it apart, counted from the start of the run, the last is at most a third old at the end, and if none was out recently the first comes within a third; no earlier keepalive is assumed |
| Keepalive.TicksAreSteady | apps/orchestrator/src/v2/tick-manager.ts:42-61 | an interval that fits is at most a third of every hold time of three seconds or more |
| SessionLiveness.SessionNeverExpires | packages/routing/src/v2/rib/rib.ts:505-512 | over two runs with one hold time, the sender's ticks at most a third of it apart: when each keepalive the sender's run emits, and one sent in the last third before it, reaches the receiver's run within a third of the hold time, every tick of the receiver finds the sender heard in time and the session stays connected |
| XdsResources.BuildXdsSnapshot | apps/envoy/src/xds/resources.ts:440-526 | one listener and cluster per servable channel, then per servable learned route, in order: ingress binds the allocated port and leads to the channel's own endpoint, egress binds the egress port and leads to the peer's address at the route's port, each with the options of its protocol |
| XdsResources.LocalPairsFrom | apps/envoy/src/xds/resources.ts:447-483 | an ingress pair is built exactly for the local routes with an endpoint and an allocated port |
| XdsResources.RemotePairsFrom | apps/envoy/src/xds/resources.ts:485-523 | an egress pair is built exactly for the learned routes with a port, a peer address and an allocated egress port |
| XdsResources.ListenersBindDifferentPorts | apps/envoy/src/xds/resources.ts:440-526 | with an injective allocation map, differently named listeners bind different ports if and only if no built channel is named like a built egress key |
| EnvoyAgreement.PoolIsInjective | apps/envoy/src/port-allocator.ts:65-92 | the allocation map of a partitioned pool is injective |
| EnvoyAgreement.RunServesStampedPorts | apps/orchestrator/src/v2/bus.ts:506-527 | after any port-safe run of a fresh node every listener sits on the port stamped on its route, and names and ports separate exactly as above |
| EnvoyAgreement.RemoteClusterUsesEgressPort | apps/envoy/src/xds/resources.ts:510-522 | on a committed table the remote cluster's port is the egress listener's own |
| PortDraws.DrawsInOrder | apps/envoy/src/port-allocator.ts:66-85 | over any sequence of requests a key that has a port keeps it, and the j-th new key draws the j-th free port |
| PortDraws.QueueBefore | apps/orchestrator/src/v2/bus.ts:409-436 | the ports free before a dispatch are drawn before those it releases |
| PortDraws.PortIsDrawn | apps/orchestrator/src/v2/bus.ts:402-493 | for any action and table: after the dispatch a key has the port it had, if no reported removal touches it, else the free port at its place among the new keys |
| EnvoyAgreement.AdvertisedPortReached | apps/envoy/src/rpc/server.ts:25-28 | the remote cluster uses the port the peer advertised if and only if that is the port the egress key keeps, or draws from the queue, given the pool before the dispatch; without a port there is no pair |
| ControlPlane.StreamIsSafe | apps/envoy/src/xds/control-plane.ts:155-330 | over any interleaving of requests, pushes of increasing versions and closing: what is written carries the latest snapshot and only subscribed types, listener responses written under a cluster subscription follow the cluster response of their version, a push leaves an open stream up to date, a closed one writes nothing |
| ControlPlane.OpenedStreamIsSafe | apps/envoy/src/xds/control-plane.ts:155-204 | read off the responses of any such run: nonces strictly increase and no type is written twice at one version |
| ControlPlane.ResponsesAreWarranted | apps/envoy/src/xds/control-plane.ts:155-255 | from the opening of any stream: every response is of a type asked for, and carries the version and resources of a snapshot at hand then or pushed since; only a close closes |
| ControlPlane.OrderedMeans | apps/envoy/src/xds/control-plane.ts:276-330 | the order kept from response to response gives both for any two of them |
| ControlPlane.SubscriptionServed | apps/envoy/src/xds/control-plane.ts:176-204 | over any events, a type subscribed to with a snapshot at hand is written if and only if a push or a request without version and nonce comes before the stream closes; a subscription made in an acknowledgement waits for it |
| XdsServer.AdsStream.SendSnapshotForTypes | apps/envoy/src/xds/control-plane.ts:276-330 | clusters then listeners, each if subscribed and not sent at this version |
| XdsServer.AdsStream.OnSnapshot | apps/envoy/src/xds/control-plane.ts:176-179 | a push becomes the latest snapshot and is sent |
| XdsServer.AdsStream.OnData | apps/envoy/src/xds/control-plane.ts:187-204 | a request with a type subscribes it; only an initial one triggers a send; an undecodable one does nothing |
| XdsServer.AdsStream.OnEnd | apps/envoy/src/xds/control-plane.ts:249-255 | ending closes the stream and keeps what was written |
| XdsServer.HandleStream | apps/envoy/src/xds/control-plane.ts:155-179 | a new stream starts from the cached snapshot, has written nothing and watches the cache |
| XdsServer.EndStream | apps/envoy/src/xds/control-plane.ts:249-255 | an ended stream is closed and watched no more; the others still are |
| XdsServer.SnapshotCache.Watch | apps/envoy/src/xds/snapshot-cache.ts:59-64 | a watcher is added once |
| XdsServer.SnapshotCache.Unwatch | apps/envoy/src/xds/snapshot-cache.ts:59-64 | exactly that watcher goes |
| XdsServer.SnapshotCache.SetSnapshot | apps/envoy/src/xds/snapshot-cache.ts:42-53 | every watching stream receives the snapshot exactly once |
| XdsServer.EnvoyRpcServer.DerivePorts | apps/envoy/src/rpc/server.ts:102-122 | the given port map, or the one derived from the routes, later routes winning |
| XdsServer.DerivedPort | apps/envoy/src/rpc/server.ts:105-122 | in the derived map a key named by several ported learned routes has the port of the last of them, one named by local channels alone the port of the last of those, and any other key none |
| XdsServer.EnvoyRpcServer.UpdateRoutes | apps/envoy/src/rpc/server.ts:82-165 | an accepted configuration is pushed at a version above everything any watching stream has seen, so each open one ends up to date; a malformed one changes nothing |

## Left out

- Transports, RPC stubs, SQLite, gRPC sockets and telemetry: input and output; a send either reaches the multiset of
  messages in flight or it does not.
- The blocking awaits between nodes: a receiver's dispatch is a step of its own.
- Dialling, reconnect scheduling and the handshake that offers hold times: they appear as the session actions they dispatch.
- Gateway synchronisation, pushes to Envoy and the health checker: fire-and-forget effects. Nothing is claimed about
  receivers applying health updates, since an equally long fresh path is not replaced.
- Protobuf encoding, schema validation, URL and IP parsing: library code; a configuration that does not parse is `None`,
  and a parser that throws after the version was consumed is not modelled.
- A server without a snapshot cache: it stores the configuration and pushes nothing.
- The repeated-NACK counter of the control plane: logging.
- Timers themselves: the tick spacing is a hypothesis of the keepalive results. Restarting the timer when the interval
  changes can delay one tick beyond the new interval; that delay is not modelled.
- Fractional hold times: times are whole milliseconds.
- Keys of object literals that JavaScript treats specially (`__proto__`, numeric-looking names) in the port map.
- Recovery.RecoveryIsFaithful: without inbound policy and with the original clock readings; `PolicyRecoveryIff` says exactly when it holds under a policy, `RecoveryAtAnyTime` and `RecoveryAfterRestart` under other readings.
- IncrementalSync.DeltasCoverFullSync: without route policy, and for nodes no learned route of which claims this node as origin; when the converse holds is `DeltasAreFullSyncIff`.
- ViewExact.DeltasAreFullSyncIff: without route policy, for the same nodes.
- RestartClock.RecoveryAfterRestart: without inbound policy.
- Flooding.FloodingConverges: announcements only, over fixed sessions and lossless delivery, without policy; with withdrawals a quiet network need not hold shortest paths (`WithdrawalStrands`).
- Partition.PartingIff: one session, both ends known to each other, lossless delivery, without policy, and closes the nodes decide on; for several sessions at once the model proves only `SurvivorsAreRight`. Sessions that end by hold-timer expiry are not part of these runs.
- PortAgreement.RunKeepsPorts: local routes arrive without a port and removed learned routes do not share a surviving local name; `AgreementExactly` says what happens otherwise.
- The v1 orchestrator, token store, key manager, policy engine, command line, web interface and views: outside the v2 routing core.
