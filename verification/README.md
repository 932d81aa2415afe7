# A verified model of one gossip node

One node of the gossip network runs a Central controller, a Membership controller, a
Gossiper and two goroutines for every connection. They talk over queues, and their tables
must stay consistent whatever order messages, dials, probes, crashes and closures arrive
in. This project models that node in Dafny and proves what its comments and code promise.

`dafny verify dfyconfig.toml` checks everything.

## How it is organised

- `types.dfy`, `messages.dfy`: peers, clients, items, and the messages on the queues.
- `indexed_map.dfy`, `indexed_set.dfy`: the swap-with-last containers, against a plain map
  and a plain set.
- `gossip_item.dfy`, `gossiper_model.dfy`: the Gossiper as functions from a state to the next
  state and the messages sent; `gossiper.dfy`: the Gossiper as an object whose loops are proved
  to do exactly that, for any order in which a range over a map visits its keys.
- `gossiper_invariant.dfy`, `gossiper_lifetime.dfy`, `gossiper_incoming.dfy`,
  `push_coverage.dfy`, `gossiper_lease.dfy`: what every run of the Gossiper keeps.
- `gossiper_rounds.dfy`, `gossiper_sends.dfy`, `gossiper_steps.dfy`, `gossiper_clients.dfy`,
  `gossiper_spreading.dfy`: what a round does to each item, exactly what the Gossiper sends and to
  whom, and what it lets in; `gossip_network.dfy`: several Gossipers that exchange copies.
- `central_model.dfy`: the Central controller's handlers as functions on its tables;
  `central_controller.dfy`: the controller as an object that refines them.
- `central_tables.dfy`, `central_effects.dfy`, `central_lifecycle.dfy`: what each handler does to
  the tables, to the goroutine count and to the life of a peer; `central_turns.dfy`,
  `central_closing.dfy`: what it sends and starts, and which endpoints it tells to close.
- `node.dfy`: the node as a state machine: both controllers, all queues, every goroutine,
  every dial and probe under way, and an environment that may send anything the source can
  receive. Channels are unbounded FIFO queues.
- `node_accounting.dfy`, `node_lease.dfy`, `node_view.dfy`, `node_orders.dfy`,
  `node_shutdown.dfy`: invariants of every step; `node_theorems.dfy`: what they mean for every
  reachable state; `node_leaks.dfy`, `node_disconnects.dfy`, `node_replay.dfy`, `node_finish.dfy`,
  `node_delivery.dfy`, `node_probes.dfy`, `node_closing.dfy`: exact statements about leases, lost
  connections, the Membership controller's log, the end of the shutdown, what reaches the Gossiper,
  probes, crashes and capacities; `node_witness.dfy`: concrete runs that show the stated exceptions to be real.
- `peer_sampler.dfy`, `membership_model.dfy`, `sample_table.dfy`, `membership_controller.dfy`:
  min-wise samplers, the meaning of the command log, and the Membership controller as an
  object whose invariant every method keeps.
- `endpoints.dfy`: the reader and writer goroutines of a connection and its close-once call.

Two readings are fixed. The Gossiper takes the address of a range variable in several
loops; the model gives each iteration its own item, which is what the code means to do.
`mrand.Perm(n)[:k]` is any sequence of k distinct positions, and a range over a map takes any
order; both are arguments.

Below, the Central controller is on course to use a peer when it is in the view list, being dialled
and not removed since, or being probed and added since. An entry of the view list may be dead; see
`DeadInViewIff`.

## What was found

- **A usage counter never returns to zero once a lease is forgotten.** The Gossiper forgets the peers
  it was given to pull from (`src/core/gossiper.go:190-207`, `317-339`), the list that a second
  reply for an item replaces, and the list of an item that a client rejects
  (`src/core/gossiper.go:433`); no message gives them back, although a counter of zero is meant to
  say that no item uses the peer (`src/core/controller.go:112-114`, `349-351`). `UsageExact` shows
  that a counter is exactly the leases that exist plus those forgotten, `UsageTellsLeasesIff` that it
  tells the leases in use if and only if none was forgotten. Such a peer stays in the tables until the
  shutdown (`LeakedPeerStays`), and removing it does not close its connection
  (`LeakedPeerStaysConnected`); `PullLeaseIsForgotten` is a run with a single pull request.
- **A client that outlives the Gossiper kills the process.** When the last goroutine of an
  API client ends after the Gossiper has closed, `src/core/controller.go:863` sends through the
  pointer that line 727 has set to nil. `PanicIff` gives the exact set of messages that kill the
  process, `ClientOutlivesGossiper` is a run without any crash that ends so, and `CanFinishIff` says
  from which states of the shutdown a clean exit is still possible.
- **A probe request can lose an add.** Probing a peer that is being probed already resets its
  flag (`src/core/controller.go:394`). `ViewFollowsCommands` shows that this is the only way in
  which the controller's intentions and its last command can differ, and
  `ProbeOverwritesAdd` is such a run.
- **A dead connection can return to the view list unreported.** When the last goroutine of a leased
  peer ends while it awaits removal, nobody is told (`src/core/controller.go:988-1011`), and an add
  puts the entry back as it is (`src/core/controller.go:301-306`). `LossReportedIff` and
  `DeadInViewIff` say exactly when a loss is reported and how an entry without goroutines comes
  about; `DeadEntryReturns` is such a run.
- **The two controllers' views can come apart.** A command that the Central controller
  queues for itself (`src/core/controller.go:1193-1197`, `1226-1229`) may overtake a newer one of
  the Membership controller that already waits in the queue, although the comment at
  `src/core/membership_controller.go:343-346` counts on eventual consistency. The node keeps three
  facts of each run: which peers the Membership controller ordered last, which of these commands
  were overtaken, and which adds were overwritten by a probe request. `ViewFollowsOrders` shows
  that with nothing of its own queued the Central controller is on course to use exactly the peers
  ordered, if and only if overtaken and overwritten agree; `OvertakenWhen` gives the guards under
  which a turn lets a command be overtaken or settles the matter; `ViewsAgreeIff` says the same of
  the view that the Membership controller's messages add up to; `ViewsComeApart` is such a run.
- **With degree 9 or 10 no item ever leaves its node.** For these degrees the constructor computes
  a threshold of 1 for state B (`src/core/gossiper.go:87-89`). Items start with counter 1 and are
  sent with it, and a node lets a copy in state B in only below the threshold
  (`src/core/gossiper.go:458-466`). `NothingSpreads` shows that in a network of such nodes an item
  becomes active only where it is announced, whatever is sent, lost, repeated or reordered;
  `SpreadsIff` shows that an item can get from one node to another with the same set-up if and only
  if the threshold is at least 2, and `ThresholdIff` that the counter stays below it on every run
  under the same condition. `PullSpreads`, which is about what does spread, asks for such a
  threshold; all other results hold for every one, in particular that the counter never wraps
  (`RunFromInitial`).
- **A full buffer depends on the order of arrival.** Once as many items as the cache holds
  have been received, even a dominating copy of a buffered item is ignored
  (`src/core/gossiper.go:501-504`). `BufferOrderIff` shows that the same entries lead to the same
  buffer in every order exactly when their distinct valid items stay below the capacity, or just
  reach it with one copy of each.
- **Membership push requests are not passed on.** The sender hands over a pointer
  (`src/core/membership_controller.go:375-387`) where the Central controller's handler asks for a
  value and otherwise ignores the message (`src/core/controller.go:416-419`); see
  `PushRequestsAreLost`.
- The branch for a released peer that "was deleted before" and the one for an endpoint
  created without registration cannot be reached outside the shutdown
  (`QueueHeadsFindTheirPeers`, `OneEndpointPerPeer`).

## Model

| member | source | states |
|---|---|---|
| NodeLeaks.UsageExact | src/core/controller.go:528-598 | On every run outside the shutdown a peer's usage counter is exactly the number of leases on it that items hold, that are granted or given back in either queue, and that the Gossiper has forgotten |
| NodeLeaks.UsageTellsLeasesIff | src/core/controller.go:112-114 | The counter equals the leases that exist if and only if none was forgotten, and is zero if and only if there is neither |
| NodeLeaks.StepBalance | src/core/gossiper.go:317-339 | Every step changes a counter and the leases that exist alike, except for the leases that the Gossiper forgets in it |
| NodeLeaks.LeakedPeerStays | src/core/controller.go:335-360 | Once a lease on a peer is forgotten, its record stays in the tables and its counter above zero in every later state before the shutdown |
| NodeLeaks.LeakedPeerStaysConnected | src/core/controller.go:346-358 | Whatever is ordered, before the shutdown nothing tells the endpoint of such a peer to close as long as its own goroutines do not end |
| NodeLeaks.AwaitingUntold | src/core/controller.go:335-360 | A removed peer whose endpoint was not told to close waits for a lease that is in use or was forgotten |
| NodeTheorems.UsageNeverUndercounts | src/core/controller.go:528-598 | A peer with a lease that an item holds, a reply grants or a release gives back is in the view list or the removal list, and its counter covers them all |
| NodeTheorems.QueueHeadsFindTheirPeers | src/core/controller.go:560-654 | A push that reaches the controller finds its target recorded, and a release never meets a peer whose record is gone |
| NodeTheorems.GoroutinesAccounted | src/core/controller.go:77-80 | The counter equals the submodules plus endpoint goroutines not yet recorded as closed; a goroutine is recorded as running exactly if it lives or one report of its end is queued, never both or twice |
| NodeTheorems.OneEndpointPerPeer | src/core/controller.go:1157-1200 | The four outgoing tables stay disjoint, each dial has one goroutine or one queued result, and a finished dial is registered and overwrites no record |
| NodeTheorems.ViewFollowsCommands | src/core/controller.go:292-411 | With no self-queued command waiting, the controller is on course to use a peer exactly if its last processed command was an add, if and only if no probe request overwrote that add |
| NodeTheorems.ViewFollowsOrders | src/core/controller.go:1157-1232 | With no self-queued command waiting, the controller is on course to use exactly the peers that the Membership controller ordered last, if and only if that command was both overtaken and overwritten or neither |
| NodeTheorems.OvertakenWhen | src/core/controller.go:1193-1197 | A turn lets a command be overtaken exactly if a dial of a peer removed since, or a probe of a peer added since, ends while the last command waiting for the peer says the contrary; and it settles the matter exactly if a command comes with nothing self-queued behind it, or the last one waiting says the same |
| NodeReplay.OrderedIsReplayed | src/core/membership_controller.go:304-349 | With no command for a peer waiting, it counts as ordered exactly if replaying all commands that the Membership controller has sent puts it into the view |
| NodeReplay.ViewsAgreeIff | src/core/controller.go:1157-1232 | With no command for a peer waiting, the controller is on course to use it exactly if the Membership controller's replayed commands have it in the view, if and only if its last command was both overtaken and overwritten or neither |
| NodeDisconnects.LossReportedIff | src/core/controller.go:988-1011 | A turn reports the loss of a connection exactly if the peer is in the view list and the turn records the end of its last goroutine |
| NodeDisconnects.DeadInViewIff | src/core/controller.go:301-306 | An entry of the view list is left without goroutines exactly if the loss is being reported, or an add brings it back from the removal list where both had ended; never both |
| NodeDelivery.GossiperHearsAll | src/core/controller.go:1236-1296 | Before the shutdown the Gossiper hears everything from outside and an answer to each request for peers, in the order in which they reach the Central controller, without loss or addition |
| NodeDelivery.RequestsAnswered | src/core/controller.go:528-556 | The answers taken, those on their way and the requests not yet handed over are together exactly the requests made, item by item and in order |
| NodeDelivery.TurnTellsGossiper | src/core/controller.go:1242-1294 | For every message, exactly what its turn appends to the Gossiper's queue |
| NodeDelivery.AnswerArrives | src/core/gossiper.go:317-339 | A request is answered with as many distinct peers of the view list as asked for, or all; an active item then holds exactly these, for any other they are given back |
| NodeProbes.EachProbeAnswered | src/core/controller.go:377-411 | Before the shutdown the requests to probe a peer are those answered, those that found it being probed, and one if it is being probed now |
| NodeProbes.ProbedHasProbe | src/core/controller.go:121-124 | A peer that counts as being probed has a probe running or its result queued, on every run |
| NodeProbes.TurnTellsMembership | src/core/controller.go:1204-1232 | For every message, exactly what its turn tells the Membership controller: the probe's own result, a known peer's presence, a loss, the order to close |
| NodeClosing.ClosureTellsIff | src/core/controller.go:1031-1127 | After a recorded closure the other goroutine's endpoint has been told to close if and only if it had been before, or this or the earlier end was a crash |
| NodeClosing.CrashStopsTheOther | src/core/controller.go:1063-1067 | In every reachable state an endpoint with a crashed goroutine and a running one was told to close |
| NodeClosing.CapacityKept | src/core/controller.go:946-947 | Accepted connections and clients never exceed their capacities |
| NodeTheorems.PushRequestsAreLost | src/core/controller.go:415-440 | In every reachable state a membership push request has no effect when it is handled, while its value would be sent to a peer whose writer runs |
| NodeTheorems.RemovalFollowsProtocol | src/core/controller.go:90-98 | When a record leaves the tables outside the shutdown, no goroutine of it is left but the one being reported, its usage is used up, no lease on it exists anywhere, and its removal was the last command |
| NodeTheorems.AwaitingForReason | src/core/controller.go:335-360 | An entry awaits removal because it is in use, or because it was told to close and has a goroutine left |
| NodeTheorems.EverythingToldToStop | src/core/controller.go:1310-1355 | During the shutdown every live goroutine's endpoint was told to close or is unused with its removal queued, and the node always has something left to do that nobody else holds up |
| NodeTheorems.ShutdownBounded | src/core/controller.go:1358-1400 | Reports handled plus three per dial plus the goroutine counter are constant over any part of the shutdown, so it is bounded |
| NodeFinish.CanFinishIff | src/core/controller.go:1358-1400 | A reachable stopping node with an empty queue can still exit cleanly if and only if no submodule's crash is on its way and no client is left once the Gossiper's pointer is gone |
| NodeFinish.HopefulFinishes | src/core/controller.go:1310-1400 | From any state of the shutdown with nothing on its way that kills the process, steps that need no other party and are no crash lead to a clean exit |
| NodeFinish.DoomedNeverFinishes | src/core/controller.go:862-864 | With a crash on its way, or clients left without the Gossiper's pointer, no continuation whatever exits cleanly |
| NodeTheorems.ExitedWhenDone | src/core/controller.go:1358-1400 | The event loop has ended cleanly exactly if the counter is zero; then all four pointers are nil, accepted connections and clients are gone, and no goroutine or submodule lives |
| NodeTheorems.NeverExitsUnasked | src/core/controller.go:1358-1400 | If submodules close only when asked, the loop never ends before the message to close was handled |
| NodeTheorems.PanicIff | src/core/controller.go:818-876 | A turn kills the process exactly on a submodule's crash, the shutdown's time-out, or the end of a client's last goroutine once the Gossiper is gone; it exits exactly otherwise when the counter reaches zero |
| NodeTheorems.GossiperStaysInOrder | src/core/gossiper.go:570-600 | From the initial state on, whatever the rest of the node does, the Gossiper's own invariant holds in every state, for every threshold |
| NodeWitness.ClientOutlivesGossiper | src/core/controller.go:862-864 | A state that a run without any crash, of a submodule or an endpoint, leads to, and whose next turn kills the process |
| NodeWitness.ProbeOverwritesAdd | src/core/controller.go:395-396 | A reachable idle state in which an added peer is not on course to be used |
| NodeWitness.ViewsComeApart | src/core/controller.go:1193-1197 | A reachable state with an empty queue in which a peer that the Membership controller added last is on its way out, its add having been overtaken |
| NodeWitness.PullLeaseIsForgotten | src/core/gossiper.go:317-339 | A reachable idle state in which a removed peer is still connected and its counter is 1, though no lease on it exists anywhere |
| NodeWitness.DeadEntryReturns | src/core/controller.go:301-306 | A reachable idle state in which the peer added last is in the view list with no goroutine and no dial, reached without any report of the loss from a state in which it was connected |
| NodeAccounting.StepAccounting | src/core/controller.go:818-1127 | Every step of the node keeps the account of goroutines, dials and submodules, for asynchronous crashes and closures in any order |
| NodeAccounting.HandledEffect | src/core/controller.go:1385-1387 | What one handled message does to running goroutines, dials, submodules and the counter is what it starts and reports |
| NodeLease.StepLeases | src/core/gossiper.go:134-185 | Every step keeps usage counters above the leases outstanding and every queued push above the releases ahead of it |
| NodeLease.PushOutnumbersReleases | src/core/controller.go:629-654 | At every position of the queues, a push finds more leases on its target than the releases ahead of it can use up |
| NodeLease.ReleaseFindsPeers | src/core/controller.go:569-595 | Releasing a list peer by peer never meets a peer that is neither in the view list nor awaiting removal |
| NodeView.StepView | src/core/controller.go:292-411 | Every step keeps the relation between a peer's place in the tables and the commands processed for it |
| NodeView.RemovalProtocol | src/core/controller.go:988-1011 | A turn that drops an outgoing record satisfies the three conditions of the removal rule |
| NodeOrders.StepOrders | src/core/controller.go:292-411 | Every step keeps the relation between the commands of the Membership controller, all commands processed and those in the queue, with no self-queued command behind a dial's result and no self-queued removal behind a report of the peer's goroutines |
| NodeShutdown.StepStopping | src/core/controller.go:1310-1355 | Every step keeps all endpoints on their way out once the shutdown has begun |
| NodeShutdown.StopTurnPotential | src/core/controller.go:64-73 | A turn of the shutdown lowers the potential by one if it records a closure, a submodule's end or a creation, and otherwise leaves it alone |
| NodeShutdown.TurnExits | src/core/controller.go:1021-1024 | A turn ends the event loop exactly if it brings the goroutine counter to zero |
| NodeShutdown.ShutdownProgress | src/core/controller.go:1310-1355 | A stopping node with work left is never stuck |
| CentralLifecycle.HandledLives | src/core/controller.go:292-411 | Each message moves each peer along the life cycle of probed, dialled, in use and leaving, and the controller corrects itself exactly when a dial or probe ends against the last command |
| CentralTables.RemoveTables | src/core/controller.go:335-373 | A removal moves one record at most, keeps the tables disjoint, and leaves on the removal list only what has a reason to be there |
| CentralTables.ReleaseAllTables | src/core/controller.go:560-598 | Releases lower each counter by no more than the peer's occurrences and drop only records without goroutines |
| CentralTables.EndpointClosedTables | src/core/controller.go:1031-1127 | A closure is recorded for exactly one goroutine, counts once, and frees no lease |
| CentralEffects.RecordedCount | src/core/controller.go:1055-1056 | Recording one closure keeps the counter equal to what still runs |
| CentralEffects.PassedIffWriterRuns | src/core/controller.go:629-706 | A message is passed on exactly if its recipient is recorded with a running writer, and to nobody else |
| CentralTurns.HandledTells | src/core/controller.go:292-1355 | For every message, exactly what both controllers are told, which goroutines, dials and probes start, and that no endpoint is sent anything unless the message is one to be passed on |
| CentralClosing.ToldIff | src/core/controller.go:1066-1124 | An endpoint that stays recorded is told to close exactly in the shutdown, on a crash while the other goroutine runs, on a removal while unused, or with the last lease given back; only crashes are recorded as such |
| CentralControllers.CentralController.PeerAddHandler | src/core/controller.go:292-329 | An unlisted peer is dialled once, a peer being dialled or probed is marked wanted, and one awaiting removal returns with its record; nothing else is sent or started |
| CentralControllers.CentralController.PeerRemoveHandler | src/core/controller.go:335-373 | A listed peer leaves at once or waits while it is in use or has a goroutine, a peer being dialled or probed is marked unwanted; nothing is sent or started |
| CentralControllers.CentralController.ProbePeerRequestHandler | src/core/controller.go:377-411 | A known peer is reported alive at once, any other is probed with its flag reset; panics if the Membership controller is gone |
| CentralControllers.CentralController.CentralProbePeerReplyHandler | src/core/controller.go:1204-1232 | The result is forwarded and, exactly if the peer was added meanwhile, an add is queued |
| CentralControllers.CentralController.RandomPeerListRequestHandler | src/core/controller.go:528-556 | Each drawn peer's counter rises by one, the others keep theirs, and the draw is sent to the Gossiper with the item it is for |
| CentralControllers.CentralController.RandomPeerListReleaseHandler | src/core/controller.go:560-598 | The loop over the released peers equals releasing them one after the other, dropping or closing what runs out of uses |
| CentralControllers.CentralController.OutgoingP2PCreatedHandler | src/core/controller.go:1157-1200 | A registered peer enters the view list with two goroutines running, and exactly if it was removed meanwhile a removal is queued |
| CentralControllers.CentralController.IncomingP2PCreatedHandler | src/core/controller.go:933-973 | Accepted only below capacity, once per peer, outside the shutdown |
| CentralControllers.CentralController.APIEndpointCreatedHandler | src/core/controller.go:775-814 | Accepted only below capacity, once per client, outside the shutdown |
| CentralControllers.CentralController.OutgoingPeerClosed | src/core/controller.go:1031-1069 | A goroutine recorded as running is recorded as stopped and counted once; the first crash closes the endpoint, the second end is followed up |
| CentralControllers.CentralController.OutgoingPeerCompletelyClosed | src/core/controller.go:977-1027 | What becomes of an endpoint without goroutines, in the shutdown, abruptly, or as ordered |
| CentralControllers.CentralController.IncomingPeerClosed | src/core/controller.go:1073-1127 | A goroutine recorded as running is counted once, and the entry goes exactly when both have stopped |
| CentralControllers.CentralController.APIEndpointClosed | src/core/controller.go:818-876 | A goroutine recorded as running is counted once; with the second one the client goes and the Gossiper is told, or the process panics if it is gone |
| CentralControllers.CentralController.SubClosedHandler | src/core/controller.go:508-524 | The submodule's pointer is dropped and counted, and the loop ends exactly at zero |
| CentralControllers.CentralController.HandlePassed | src/core/controller.go:629-706 | Pushes, pull requests and replies and notifications reach a recorded endpoint whose writer runs, and nothing else changes or is sent |
| CentralControllers.CentralController.CloseHandler | src/core/controller.go:1310-1355 | Every submodule and endpoint is told to close, and pending dials and probes are cancelled |
| CentralControllers.CentralController.Turn | src/core/controller.go:1378-1398 | One turn moves the tables, the outcome and everything sent and started exactly as the model says, the filter of the shutdown included; it keeps the tables in order and the counter equal to what runs, and goroutines, dials and submodules change by what it starts and what the message reports |
| GossiperInvariant.RunInv | src/core/gossiper.go:134-436 | Every run keeps ttl, counter and state in bounds, caches within capacity and active and quarantined items apart, and no counter wraps, whatever the threshold of state B |
| GossiperInvariant.RunFromInitial | src/core/gossiper.go:84-105 | From the state that the constructor builds, every run ends in a state with all these bounds |
| GossiperInvariant.RoundInv | src/core/gossiper.go:307-313 | Over one round every active item retires for its stated reason or grows one round older without regressing |
| GossiperLifetime.ActiveLifetime | src/core/gossiper.go:158-168 | While an item is active its ttl counts rounds exactly, its counter counts rounds in state C exactly, and its state never goes back under Cmp |
| GossiperLifetime.LifetimeBound | src/core/gossiper.go:158-168 | An item stays active for fewer rounds than its ttl and fewer than cMax of them in state C |
| GossiperLifetime.LeavesIff | src/core/gossiper.go:158-185 | An active item leaves exactly if its last round is over or a client rejects it |
| GossiperLifetime.RetiredStaysOut | src/core/gossiper.go:170-185 | After retirement or rejection an item is not active again before maxTTL sweeps of the old list |
| GossiperLifetime.QuarantineHolds | src/core/gossiper.go:231-244 | A quarantined item is not adopted by push, pull or announcement while sweeps remain |
| GossiperLifetime.QuarantineExact | src/core/gossiper.go:291-303 | Unless rejected again, quarantine counts down by one each round and ends with the last |
| GossiperLifetime.ThresholdIff | src/core/gossiper.go:278-279 | Items in state B stay below the promotion threshold on all runs if and only if it is at least 2 |
| GossiperRounds.MedianRule | src/core/gossiper.go:272-287 | Over a round an active item in state B follows a copy in state C, counts one for a copy at least as far and is promoted when that makes the threshold, and otherwise stays as it is |
| GossiperRounds.CounterCountsCopies | src/core/gossip_item.go:74-92 | While an item stays in state B its counter counts exactly the rounds with a copy at least as far, none of them in state C |
| GossiperRounds.RoundAges | src/core/gossiper.go:158-168 | A surviving item keeps its peers, loses one ttl, and in state C gains one on its counter |
| GossiperSends.RoundTakesIn | src/core/gossiper.go:231-272 | A round takes in an unknown item that was received, with a fresh state after the copy's, or the cache is full; and nothing else |
| GossiperSteps.PushedIff | src/core/gossiper.go:136-157 | A round pushes exactly the active items to the peers whose turn it is, with state and counter as before the round |
| GossiperSteps.StepAsks | src/core/gossiper.go:248-266 | Peers are asked for once for exactly the items that become active, degree for each round that an item can be pushed in, and degree for pulling once a round |
| GossiperSteps.AnnouncedIff | src/core/gossiper.go:343-385 | An announced item becomes active exactly if there is room and it is unknown, with the announced ttl, the maximum for zero or more |
| GossiperSteps.NotifiedIff | src/core/gossiper.go:211-225 | A client is told of an item, once, exactly if it is registered for the type and an unknown item was received or the item is announced |
| GossiperClients.RegisteredIff | src/core/gossiper.go:389-418 | Over every run a client is registered for a type exactly if it asked for it and has not left since |
| GossiperClients.AwaitsWhatWasSent | src/core/gossiper.go:422-443 | Over every run an answer is awaited exactly for what was sent last under the id and neither answered since nor left behind |
| GossiperClients.NotificationsNumbered | src/core/gossiper.go:216-222 | From its registration on a client's notifications are numbered from 0, all different within the 16 bits of an id |
| GossiperSpreading.PullsFollow | src/core/gossiper.go:190-207 | Over every run the next round pulls from exactly the peers granted since the last one, and answers are awaited from exactly those of the last round that have not answered |
| GossiperSpreading.PullRequestsIff | src/core/gossiper.go:191-197 | A round sends one pull request to each of these peers, and nothing else sends one |
| GossiperSpreading.PullReplyListsActive | src/core/gossiper.go:510-527 | An answer lists exactly the active items, each once, with state and counter, for the peer that asked |
| GossiperSpreading.PushLetInIff | src/core/gossiper.go:451-506 | A push is let in exactly if the thresholds admit it and there is room; the buffer then holds a copy at least as far |
| GossiperSpreading.PullLetInIff | src/core/gossiper.go:531-550 | The same for all entries of an awaited answer, as long as there is room |
| GossiperSpreading.PullSpreads | src/core/gossiper.go:510-550 | An exchange by pull brings exactly the active items of one node into the buffer of another |
| GossipNetwork.SendsOwnCopies | src/core/gossiper.go:146-151 | Every copy that a node sends is of an item active at it, in its current state |
| GossipNetwork.NothingSpreads | src/core/gossiper.go:458-466 | In a network of nodes with threshold 1 an item becomes active only where it is announced |
| GossipNetwork.SpreadsIff | src/core/gossiper.go:87-89 | An item can get from one node to another with the same set-up if and only if the threshold is at least 2 |
| GossiperIncoming.BufferIsJoin | src/core/gossiper.go:451-550 | Below capacity the buffer holds, for every valid item accepted, a greatest copy under Cmp |
| GossiperIncoming.BufferIgnoresOrder | src/core/gossiper.go:496-550 | Its content depends only on which entries were accepted, not on order or on the split between pushes and pull replies |
| GossiperIncoming.PullIsPushes | src/core/gossiper.go:541-547 | A pull reply has the effect of pushing its entries one by one |
| GossiperIncoming.AnyOrderIff | src/core/gossiper.go:451-506 | All orders of the same entries lead to the same buffer if and only if the distinct valid items stay below the capacity, or just reach it with one copy of each |
| GossiperIncoming.BufferOrderIff | src/core/gossiper.go:496-550 | The same for any way in which the accepted entries arrive, by pushes or in pull replies |
| PushCoverage.BalancedPushes | src/core/gossiper.go:136-159 | Over any run of rounds an item is pushed to any two of at least degree peers equally often, up to one |
| PushCoverage.FullCoverage | src/core/gossiper.go:136-159 | With degree peers for each of so many rounds, these rounds push the item to every peer exactly once; so with the degree times ttl peers asked for in state B and the degree times cMax in state C |
| PushCoverage.ShortListCoverage | src/core/gossiper.go:136-159 | With at most degree peers, every round pushes it to every peer once |
| GossiperLifetime.NotificationsAwaitAnswers | src/core/gossiper.go:211-225 | Every interested client, and no other, is sent one notification, and an answer with its id finds the item |
| GossiperLease.RoundLeases | src/core/gossiper.go:134-185 | A round conserves leases: what items hold before is what they hold after plus what is released, and pushes go only to leased peers, ahead of all releases |
| GossiperLease.HandleLeases | src/core/gossiper.go:317-443 | What a handler holds, gives back and forgets is exactly what was held or has just been granted; it forgets the peers for pulling, a list replaced by a reply, and the list of a rejected item |
| GossipItems.CmpIsLexicographic | src/core/gossip_item.go:60-69 | Comparing the packed 16-bit words orders by state, then by counter |
| GossipItems.GossipItemInfo.UpdateItemInfo | src/core/gossip_item.go:74-92 | The in-place update is the median-counter transition |
| Gossipers.Gossiper.PushRound | src/core/gossiper.go:134-186 | The two loops push, age, release and quarantine as the model says, in any visiting order |
| Gossipers.Gossiper.PullRound | src/core/gossiper.go:190-207 | Pull requests, exchange of the peer sets, and the request for more |
| Gossipers.Gossiper.NotifyClients | src/core/gossiper.go:211-225 | Each interested client gets one notification under a fresh id |
| Gossipers.Gossiper.UpdateRound | src/core/gossiper.go:231-287 | The loops over received and active items refine the model |
| Gossipers.Gossiper.UpdateOldGossipsRound | src/core/gossiper.go:291-303 | Quarantine entries are counted down and dropped at zero |
| Gossipers.Gossiper.GossipRound | src/core/gossiper.go:307-313 | The four parts in sequence are one step of the model |
| Gossipers.Gossiper.RandomPeerListReplyHandler | src/core/gossiper.go:317-339 | Granted peers are stored, used for pulls, or released at once |
| Gossipers.Gossiper.AnnounceHandler | src/core/gossiper.go:343-385 | Notification, admission and the clamped time to live |
| Gossipers.Gossiper.ValidationHandler | src/core/gossiper.go:422-443 | Only an outstanding notification counts, and a rejection quarantines |
| Gossipers.Gossiper.CheckAndAddIncomingGossip | src/core/gossiper.go:451-492 | The sanity check, and which of two copies is kept |
| Gossipers.Gossiper.IncomingPullRequestHandler | src/core/gossiper.go:510-527 | The reply lists every active item with its state and counter |
| Gossipers.Gossiper.IncomingPullReplyHandler | src/core/gossiper.go:531-550 | The loop with its budget refines the recursive model |
| PeerSamplers.SampleIgnoresOrder | src/core/membership_controller.go:179-219 | With an injective permutation the sample depends only on the set of peers fed, not on order, batches or repetitions |
| PeerSamplers.BatchesKeepLeast | src/core/membership_controller.go:179-219 | The sample is a least peer of the whole history |
| PeerSamplers.AcceptedIffChanged | src/core/membership_controller.go:208-219 | A set of peers is reported as accepted exactly if the sample changes |
| PeerSamplers.TiesDependOnOrder | src/core/membership_controller.go:188-201 | Without injectivity the order matters |
| PeerSamplers.PeerSampler.NextSet | src/core/membership_controller.go:208-219 | Returns no error exactly if the sampled peer changed, and keeps the sample least over everything fed |
| PeerSamplers.PeerSampler.SameSample | src/core/membership_controller.go:44-48 | Samplers with the same key and history sample the same peer |
| MembershipModel.ReplayReplaces | src/core/membership_controller.go:304-335 | Replaying the removals and additions of the two differences turns one view into the other |
| MembershipModel.LogYieldsView | src/core/membership_controller.go:304-349 | After any sequence of replacements and removals, replaying all messages sent so far on an empty set yields the view |
| MembershipModel.PushedWhereMade | src/core/membership_controller.go:368-390 | Exactly the drawn peers for which the coin and the proof of work turn out well are sent one push request each |
| MembershipModel.SizesAddUp | src/core/membership_controller.go:106-112 | With disjoint sampler sets, the sizes add up to the number of samplers |
| SampleTables.HoldsSizes | src/core/membership_controller.go:106-112 | If every sampler sits under the peer it samples, the sets are disjoint and their sizes sum to the number of samplers |
| SampleTables.FeedAll | src/core/membership_controller.go:474-500 | Every sampler is fed once; exactly those that changed move, and exactly the sets left empty are listed |
| SampleTables.Regroup | src/core/membership_controller.go:505-516 | Samplers are put under the peer they sample now, without losing any |
| SampleTables.Create | src/core/membership_controller.go:457-470 | One new sampler per success, unless there is no peer to sample |
| SampleTables.MigrateAll | src/core/membership_controller.go:448-517 | After feeding, dropping and regrouping, every sampler is kept once, under its peer, and the sizes grow by the number of new ones |
| MembershipControllers.MembershipController.SplitViews | src/core/membership_controller.go:304-319 | Both differences are computed right although the argument is changed through its second name |
| MembershipControllers.MembershipController.ReplaceViewList | src/core/membership_controller.go:304-335 | Each peer of the two differences is sent exactly once, removals first, and replaying the log yields the view |
| MembershipControllers.MembershipController.RemovePeer | src/core/membership_controller.go:339-364 | Everything about the peer is forgotten, its samplers' capacity returns without overflow, and one removal is sent if it was in the view |
| MembershipControllers.MembershipController.PushRound | src/core/membership_controller.go:368-392 | Push requests go to those drawn peers for which the coin and the proof of work turn out well, in order |
| MembershipControllers.MembershipController.PullRound | src/core/membership_controller.go:396-409 | Pull requests go to the drawn peers, and only they are awaited |
| MembershipControllers.MembershipController.UpdateRound | src/core/membership_controller.go:414-444 | The new view is the pushed, pulled and sampled peers exactly if at most alpha peers pushed and somebody pushed or answered; otherwise it stays |
| MembershipControllers.MembershipController.UpdateSampleRound | src/core/membership_controller.go:448-517 | Samplers plus room stay equal to the capacity without underflow, old samplers are fed exactly the new peers, and new ones only those |
| MembershipControllers.MembershipController.ProbePeerRound | src/core/membership_controller.go:520-527 | Every sampled peer is probed once |
| MembershipControllers.MembershipController.MembershipRound | src/core/membership_controller.go:532-539 | A whole round sends its push, pull, view and probe messages in this order, renews the view or keeps it, feeds every sampler exactly the new peers, and keeps the invariant |
| MembershipControllers.MembershipController.Bootstrap | src/core/membership_controller.go:543-553 | The view starts as the bootstrapping peer alone, announced by its commands, followed by the push and pull requests to it; without one nothing happens |
| MembershipControllers.MembershipController.IncomingPullReplyHandler | src/core/membership_controller.go:625-643 | Only an awaited answer counts, once, and only its well-formed addresses |
| MembershipControllers.MembershipController.IncomingPullRequestHandler | src/core/membership_controller.go:606-621 | The answer lists the view without repetition |
| IndexedMaps.ApplyAll | src/datastruct/indexedmap/indexedmap.go:34-59 | Under every sequence of operations the table stands for the plain map |
| IndexedMaps.RemoveRefines | src/datastruct/indexedmap/indexedmap.go:46-59 | Swap-with-last removal takes out one key and changes no other value |
| IndexedMaps.IndexInverse | src/datastruct/indexedmap/indexedmap.go:69-98 | Lookup by key and by index are inverse to each other |
| IndexedMaps.KeysListed | src/datastruct/indexedmap/indexedmap.go:23-26 | The key list holds each key exactly once |
| IndexedMaps.IndexedMap.Put | src/datastruct/indexedmap/indexedmap.go:34-43 | The object's new contents and key order |
| IndexedMaps.IndexedMap.Remove | src/datastruct/indexedmap/indexedmap.go:46-59 | The object's new contents and key order |
| IndexedMaps.IndexedMap.KeyAtIndex | src/datastruct/indexedmap/indexedmap.go:69-75 | An error exactly out of bounds, otherwise the key with that index |
| IndexedMaps.IndexedMap.KeyIndex | src/datastruct/indexedmap/indexedmap.go:84-89 | The index at which the key is found, or -1 |
| IndexedSets.ApplyAll | src/datastruct/indexedset/indexedset.go:23-42 | Under every sequence of operations the table stands for the plain set |
| IndexedSets.RemoveRefines | src/datastruct/indexedset/indexedset.go:32-42 | Swap-with-last removal takes out exactly one element |
| IndexedSets.IndexInverse | src/datastruct/indexedset/indexedset.go:52-68 | Lookup by element and by index are inverse to each other |
| IndexedSets.IndexedSet.ElemAtIndex | src/datastruct/indexedset/indexedset.go:52-54 | The element with that index |
| Endpoints.EachRoutineReportsOnce | src/core/peer.go:201-260 | On every run each goroutine of an endpoint reports its end at most once, and exactly once if it has ended |
| Endpoints.CrashReportedIff | src/core/peer.go:201-302 | On every run the report of a goroutine's end says that it crashed exactly if it did |
| Endpoints.WritesInOrder | src/core/peer.go:269-302 | On every run what was written and what waits are together exactly what was handed to the endpoint, in order |
| Endpoints.ClosedEndpointDrains | src/core/peer.go:269-302 | Once told to close, an endpoint stops under every schedule: until both goroutines have ended one can step, they take at most the steps that were left, and unless the writer crashes exactly these, writing in order what was queued before |
| Endpoints.P2PEndpoint.Close | src/core/peer.go:312-321 | However often it is called, one order to close is queued and the channel is closed once |
| Endpoints.P2PEndpoint.WriterRoutine | src/core/peer.go:269-302 | The writer writes what precedes the order to close, then reports its end once |

## Left out

- Records as objects: the tables of `CentralController` and `Gossiper` hold records as values that are put back after a change, so sharing of one record between tables is not captured; `GossipItemInfo` and `PeerSampler` are objects.
- Indexed containers inside the controllers: `CentralController.viewList`, the sampler table and the pull replies are plain maps and sets there; the indexed containers are proved to stand for plain ones on their own, and random draws by index are arguments. `MembershipController.viewList` is an indexed set.
- The shared range variable of Go 1.14 in `src/core/gossiper.go:136-165`, `232-265`, `293-296` and `517-518`: each iteration has its own item in the model.
- The address of an announced item that several messages share: items are values.
- Payloads of the wrong type, which every handler ignores: a message always has the payload its type calls for, except perhaps that of a membership push request.
- Membership messages from remote nodes on their way through the Central controller (`src/core/controller.go:1273-1296`): they only pass through, and the Membership controller is part of the environment of the node.
- Gossip from outside that arrives for a Gossiper that has failed: the queue of a failed Gossiper is discarded.
- The scrypt proof of work, addresses and timestamps of push requests, and the push probability: their outcome is an argument.
- The keyed permutation (SHA-256 and AES): any function from peers to naturals, injective where stated.
- Sockets, dialling, deadlines, encoding, signals, tickers and logging: events that may happen at any time; a failed write of one message by an endpoint is not modelled.
- The prober's `conn.Close()` on a failed dial (`src/core/controller.go:399-401`).
- Capacity of channels and blocking sends: no claim about deadlock.
- The floating-point set-up of thresholds and sizes: parameters with stated bounds.
- API wire decoding, the secure channel, the parsers and start-up code.
