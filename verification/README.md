# Elite eBPF telemetry: a Dafny model of its replication, admission and control logic

This project models the parts of the telemetry system whose correctness is not visible from
any single function, and proves what they promise for every input, every interleaving or
every run.

* **IP-cache replication.** The controller numbers pod and node address changes, folds a
  prefix of them into a snapshot and streams the rest to watchers through bounded channels;
  agents list, watch, apply and list again. `Controller` is the service as a transition
  system whose labels are single atomic blocks of single goroutines (a locked section, one
  channel operation, one move of the `syncControl` loop); `Run` folds any list of labels, so a
  lemma about `Run(INITIAL, ls)` speaks about every interleaving. Go panics (the explicit
  one, a second `close`, a send on a closed channel) are states of the model. `Service` is the
  same service as an object with loops and in-place updates; its `Valid` says that the object
  is where the transition system gets by the steps it has recorded, so every theorem carries
  over to it. `Replication` adds an agent, the wire between them, lost connections and
  controller restarts, `Recovery` the way back from any state. `ControllerBackpressure` says
  which watchers are given up. `Events` adds the pod and node
  handlers, each informer on its own goroutine.
* **XDP admission.** `TokenBucket` is the per-(source, tier) bucket on wrapping 64-bit words,
  `Mitigator` the packet program with its per-CPU counters, `Verdicts` what it decides.
* **Control loops.** `Dcic` is the cache-isolation controller, `Ewma`, `LeastSquares` and
  `Forecaster` the smoothing, regression, ring and kinematic tracker, `Forecasts` how good its
  projections are, `ShedChain` the way from
  projected utilisation to drop thresholds. Floating-point numbers are `real`.
* **Index and stream agreement.** `Kallsyms` is the cached binary search beside the linear
  scan, `LinkManager` the interface table and its listeners.

`dafny verify dfyconfig.toml` checks everything.

Where the code does less than its documentation or its shape suggests, the model follows the
code and says exactly when the promise holds:

* An update handler that skips an event can leave the address index wrong
  (`Events.EventFaithful` is an equivalence; `Events.SkippedHostNetworkFlip` is an instance).
* The comment on `RegisterLinkListener` promises no event loss; a full channel loses events
  (`LinkManager.LossIsPossible`), though never among the first 1024
  (`LinkManager.FirstEventsFit`). A listener agrees with the table at every moment exactly
  when no update that changes the table finds its channel full (`LinkManager.ListenersAgree`),
  and what it knows after losses is characterised too (`LinkManager.ListenerKnows`).
* Pod and node handlers log concurrently. Every order they can log in gives the right index
  exactly when no live object sits at an address both informers have logged
  (`Events.MergeFaithfulIff`); `Events.MovedAddressLost` is the failing family.
* The ten-second cap of a token bucket is the cap of the policy in force, so a lowered policy
  leaves buckets above it; `TokenBucket.CapHoldsIff` says exactly when it holds.
* Raising the shed rate above zero can spare a packet that the binary drop of a zero rate would
  have dropped, in exactly the cases of `Verdicts.RaisedRateSparesIff`.
* A refill throws fractions of a second away, so a source is only sure of half its rate
  (`TokenBucket.RefusedHasHadHalf`, reached in `TokenBucket.HalfIsReached`).
* The latency ratio is measured against a target of one, which is out of range and replaced by
  seven tenths: a fault projected 10^-9 above the smoothed value already sheds everything
  (`ShedChain.FusedValue`, `ShedChain.LatencyFaultShedsAll`).
* The linear symbol scan runs off its table exactly at the last start address
  (`Kallsyms.ScanCrashesIff`).
* Writing the policy map replaces a zero shed rate by a full one on a fault, which makes the
  written rate fall as load rises in exactly the cases of `ShedChain.WrittenMonotoneIff`.
* The half-of-target clamp in `ShedController.Adjust`, the zero-denominator guard of the
  regression, the panic in `syncUpToDateClients` and the branch marked impossible in `syncOne`
  are all dead.

## Model

| member | source | states |
|---|---|---|
| ChangeLog.ReplayLookup | pkg/controller/ipcache/ipcache.go:387-397 | replaying a log gives an address exactly when the last change naming it is a Set, and then that change's entry |
| ChangeLog.FindNext | pkg/controller/ipcache/ipcache.go:150-164 | on a strictly increasing log, the least index whose revision exceeds the target, or -1 when there is none |
| ControllerInvariant.RunKeeps | pkg/controller/ipcache/ipcache.go:492-592 | the global invariant (numbering, log, pending batch, channels, client phases, work lists) holds after every list of steps of all goroutines |
| ControllerInvariant.CompactMeaning | pkg/controller/ipcache/ipcache.go:399-452 | compaction leaves snapshot-plus-log unchanged in meaning, keeps the snapshot equal to the replay to its revision, overtakes no active client, leaves only entries above the lowest needed revision, and leaves any only if an active client sits exactly at the snapshot |
| ControllerTheorems.NeverPanics | pkg/controller/ipcache/ipcache.go:454-592 | no interleaving reaches the revision-mismatch panic, a second close of a channel, or a send on a closed channel |
| ControllerTheorems.UpToDateMeansSynced | pkg/controller/ipcache/ipcache.go:492-542 | up-to-date clients sit at the newest synced revision, the pending batch is exactly the history after it, and while lagging clients are served the log does not reach past it |
| ControllerTheorems.GaplessDelivery | pkg/controller/ipcache/ipcache.go:534-592 | what a watcher was sent followed by what waits in its channel is the history from the requested to its current revision, in order, nothing missing or repeated |
| ControllerTheorems.DeliveredIsHistory | pkg/controller/ipcache/ipcache.go:118-142 | also after its stream has failed or ended, a watcher has only ever been sent a gap-free stretch of history from the revision it asked for |
| ControllerTheorems.StorageMeaning | pkg/controller/ipcache/ipcache.go:369-452 | in every reachable state the snapshot is the replay to its revision, snapshot and log replay everything drained, the log is numbered without a gap after the snapshot, and no active watcher is below it |
| ControllerTheorems.RetentionIsTight | pkg/controller/ipcache/ipcache.go:506-529 | after a tick, after slow clients were closed, and after an append that leaves more than 1024 entries, entries stay in the log only while an active watcher sits exactly at the snapshot; above 10240 slow clients are closed first |
| ControllerTheorems.CatchUp | pkg/controller/ipcache/ipcache.go:521-529 | at the end of a tick every active client registered before it that asked for something logged has everything logged, or is marked blocking and is really behind |
| ControllerTheorems.DrainedBeforeDataLoss | pkg/controller/ipcache/ipcache.go:118-142 | a stream that ends because its channel was closed has sent everything that was ever put into the channel |
| ControllerTheorems.ChannelLifecycle | pkg/controller/ipcache/ipcache.go:454-490 | over any step a closed channel stays closed and only empties from the front, a channel closes only for a listed client already marked closed, and nothing sent is taken back |
| ControllerTheorems.ControlNeverStalls | pkg/controller/ipcache/ipcache.go:492-592 | each own step of syncControl leaves strictly less to do and no other goroutine adds to it, so no watcher can hold it up |
| ControllerProgress.LaggardsProgress | pkg/controller/ipcache/ipcache.go:558-592 | by the end of a tick a lagging active client has caught up or is a full channel beyond what it had sent when the tick began, whatever happened meanwhile |
| ControllerBackpressure.ClosedIff | pkg/controller/ipcache/ipcache.go:476-490 | over every interleaving and next step an open client is closed exactly by the end of its own stream, or by the controller when an append leaves more than 10240 entries and the client is listed, blocking and has 1024 buffered |
| ControllerBackpressure.BlockingMeansFull | pkg/controller/ipcache/ipcache.go:546-590 | a client is called blocking only when a send finds 1024 entries in its channel |
| ControllerBackpressure.ReadersAreNeverClosed | pkg/controller/ipcache/ipcache.go:454-592 | a watcher whose channel has room whenever the controller moves, and whose own stream has not ended, is never closed, unlisted or marked blocking |
| ControllerBackpressure.StreamEndsIff | pkg/controller/ipcache/ipcache.go:118-148 | a stream ends with DataLoss exactly on a channel closed by the controller and read empty, and without an error exactly by its own end |
| ControllerBackpressure.UpToDateIff | pkg/controller/ipcache/ipcache.go:544-592 | outside a flush a listed watcher that was sent anything is up to date if and only if it has everything ever synced |
| ControllerBackpressure.BatchesAreSmall | pkg/controller/ipcache/ipcache.go:514-520 | at most 20 entries wait outside a flush, and a flush no tick asked for starts at exactly 21 |
| Service.Service.ListCache | pkg/controller/ipcache/ipcache.go:76-90 | the reply carries the period and the snapshot's revision and lists exactly the snapshot's entries, from which an agent rebuilds the replay of the history to that revision |
| Service.Service.OpenWatch | pkg/controller/ipcache/ipcache.go:92-116 | a period other than the service's is InvalidArgument, a revision below the snapshot is DataLoss, anything else registers a stale client at the end of the list |
| Service.Service.Watcher | pkg/controller/ipcache/ipcache.go:118-148 | the stream goroutine's receive, failed send, close mark and end are the corresponding steps |
| Service.Service.LogChange | pkg/controller/ipcache/ipcache.go:369-385 | from its start or from a send that had to wait, entries get consecutive revisions after the counter and enter the channel in order until none is left or the channel is full; then exactly the next entry is numbered and waiting |
| Service.Service.MinOfClients | pkg/controller/ipcache/ipcache.go:406-418 | the lowest revision among the counter and the active clients, and whether there is an active client |
| Service.Service.FoldLog | pkg/controller/ipcache/ipcache.go:427-447 | the loop folds exactly the leading entries at or below the limit into the snapshot and shifts the rest to the front |
| Service.Service.CompactLog | pkg/controller/ipcache/ipcache.go:399-452 | the object afterwards is the compaction of the object before |
| Service.Service.CopyClients | pkg/controller/ipcache/ipcache.go:454-474 | closed clients leave the list and their channels are closed once; the result is the active clients in the wanted phases, in list order |
| Service.Service.CloseBackpressuredClients | pkg/controller/ipcache/ipcache.go:476-490 | the clients `ControllerBackpressure.ClosedIff` describes are marked closed and the result is their number |
| Service.Service.OfferPending | pkg/controller/ipcache/ipcache.go:546-552 | one select: the entry is sent, or the client becomes blocking and is done |
| Service.Service.SyncOneUpdateToDateClient | pkg/controller/ipcache/ipcache.go:544-556 | with any interference between its selects the loop is a run of the transition system that finishes with this client |
| Service.Service.SyncUpToDateClients | pkg/controller/ipcache/ipcache.go:534-542 | the whole batch is a run of the transition system; the panic branch is proved dead |
| Service.Service.OfferLogged | pkg/controller/ipcache/ipcache.go:573-590 | one select of the catch-up loop; the branch marked impossible is proved dead |
| Service.Service.SyncOne | pkg/controller/ipcache/ipcache.go:565-592 | search and catch-up loop are a run of the transition system that finishes with this client |
| Service.Service.SyncClients | pkg/controller/ipcache/ipcache.go:558-563 | every stale or blocking client of the list is served, as a run of the transition system |
| Service.Service.Retain | pkg/controller/ipcache/ipcache.go:506-513 | the two retention thresholds, with slow clients closed before compaction above the upper one |
| Service.Service.OnChange | pkg/controller/ipcache/ipcache.go:502-520 | the select case for a change is a run of the transition system back to the select |
| Service.Service.OnTick | pkg/controller/ipcache/ipcache.go:521-529 | the select case for the ticker is such a run, and every client registered when it fired is caught up or blocking afterwards |
| Replica.ListRoundTrip | pkg/exporter/task-agent/agent.go:166-188 | whatever order the snapshot is listed in, the agent rebuilds exactly the snapshot |
| Replica.ApplyPresent | pkg/exporter/nettop/ipcache.go:72-83 | applying a change at the agent is presenting the controller's table after the change |
| Replica.CacheHolder.UpdateIPCache | pkg/exporter/nettop/ipcache.go:57-70 | period and revision are replaced and the entries are those of the list, later ones winning |
| Replica.CacheHolder.ApplyIPCacheChange | pkg/exporter/nettop/ipcache.go:72-83 | the revision is taken over and a Set or Del changes exactly its own address |
| Replication.ReplicaAgreement | pkg/exporter/task-agent/agent.go:147-233 | after any interleaving of changes, compactions, slow-client closes, disconnects, relists and controller restarts, the agent's map is the replay of its period's history up to its revision |
| Replication.NobodyCrashes | pkg/exporter/task-agent/agent.go:129-145 | neither the agent's nil dereference nor a controller panic is reachable in the combined system |
| Replication.ReceiveAdvancesByOne | pkg/exporter/task-agent/agent.go:216-231 | every response applied within a stream moves the replica by exactly one revision |
| Replication.TickConvergence | pkg/controller/ipcache/ipcache.go:521-529 | an agent that has read its stream empty by the end of a tick and is not blocking holds everything logged, and the whole history if nothing is left to log |
| Recovery.Recovery | pkg/exporter/task-agent/agent.go:129-233 | from every reachable state, whatever was lost, closed or restarted, some continuation without a new change, a restart or a watcher giving up leaves the agent with the whole current history, watching again |
| Recovery.TickGains | pkg/controller/ipcache/ipcache.go:521-592 | an agent that has read its stream empty is moved on by the next tick, or has everything |
| Replication.AgentLoop.Reconn | pkg/exporter/task-agent/agent.go:147-202 | a relist, forced by an empty period, replaces the cache by the listing; the watch request names the cache's period and revision |
| Replication.AgentLoop.OnResponse | pkg/exporter/task-agent/agent.go:228-230 | one response is applied to the cache |
| Replication.AgentLoop.OnError | pkg/exporter/task-agent/agent.go:217-227 | DataLoss and InvalidArgument force a relist, nothing else does |
| Events.HandlersLogLoggable | pkg/controller/ipcache/ipcache.go:215-249 | handlers only log Set and Del of entries that name an owner |
| Events.EventFaithful | pkg/controller/ipcache/ipcache.go:261-367 | an event keeps the replayed table equal to the map of owned addresses if and only if it is not a skipped update that changes what the object owns |
| Events.SameVersionSkipped | pkg/controller/ipcache/ipcache.go:292-297 | an update that keeps the version logs nothing |
| Events.IndexFaithful | pkg/controller/ipcache/ipcache.go:200-397 | over every such event sequence handled in order, replaying what the handlers log gives exactly the map from each address to the live object that owns it, ownership read off the object's own fields |
| Events.MergeFaithfulIff | pkg/controller/ipcache/ipcache.go:177-195 | with pod and node handlers on two goroutines, every interleaving of what they log gives the index of all live objects if and only if no live object is indexed under an address that both informers have logged |
| Events.MovedAddressLost | pkg/controller/ipcache/ipcache.go:269-322 | an address passed from a deleted pod to a new node is lost when the pod informer logs last |
| Events.FaithfulNeedsDisjoint | pkg/controller/ipcache/ipcache.go:387-397 | no table can be faithful to two owners of one address, so the disjointness asked of events is necessary |
| Events.ApiUpdatesAreSafe | pkg/controller/ipcache/ipcache.go:292-314 | updates that keep the host-network flag, and change the version whenever they change anything, are never of the harmful kind |
| Events.SkippedHostNetworkFlip | pkg/controller/ipcache/ipcache.go:292-314 | a pod moved to the host network with unchanged addresses is skipped and stays indexed |
| Events.AgentKnowsLiveObjects | pkg/controller/ipcache/ipcache.go:200-397 | end to end: an agent that has caught up with any such interleaving knows exactly the addresses live objects own, with kind, name and namespace of the owner |
| Events.LookupFindsOwner | pkg/exporter/nettop/ipcache.go:45-50 | a lookup at that agent answers, field by field, with the live pod or node owning the address, and with nothing exactly when nobody does |
| TokenBucket.RefillRate | bpf/xdp_mitigator.c:91-102 | the rate is never zero and fits 32 bits when the tier's share is at most one million ppm |
| TokenBucket.RefillRateIs | bpf/xdp_mitigator.c:91-102 | the rate is the whole part of `mu` times the share over a million, with the two defaults, and one instead of none |
| TokenBucket.NoWrap | bpf/xdp_mitigator.c:104-132 | within range no 64-bit step wraps: the code computes the unbounded refill and spend, and never exceeds ten seconds of the highest rate |
| TokenBucket.SpentSinceCreation | bpf/xdp_mitigator.c:88-132 | under any policy changes up to a highest rate, since creation a bucket never holds more than ten seconds' worth of it and has granted at most one second's worth plus one per full second |
| TokenBucket.SpentInWindow | bpf/xdp_mitigator.c:88-132 | under any policy changes up to a highest rate, in any window at most eleven seconds' worth plus one per full second is granted, whatever happened before |
| TokenBucket.CapHoldsIff | bpf/xdp_mitigator.c:118-131 | for every bucket, rate, clock and cost, the cap of the rate in force holds after a request if and only if the request refilled the bucket or what it left was within the cap |
| TokenBucket.LoweredPolicyKeepsTokens | bpf/xdp_mitigator.c:118-131 | lowering the rate from 100 to 1 leaves 999 tokens after the next packet, against a cap of ten |
| TokenBucket.RefusedMeansEmpty | bpf/xdp_mitigator.c:118-131 | a packet is refused exactly by an empty bucket refilled within the last second |
| TokenBucket.RefusedHasHadHalf | bpf/xdp_mitigator.c:88-132 | over any run whose refills the cap never cuts, a source that is refused has been granted at least half of what the lowest rate promises up to the last second |
| TokenBucket.HalfIsReached | bpf/xdp_mitigator.c:118-125 | a refill a nanosecond short of two seconds is worth one |
| Mitigator.OneVerdict | bpf/xdp_mitigator.c:167-274 | a packet moves exactly the counter of its verdict and the packet counter, by one each, and an event describes the packet that filled the batch; packets without an acting policy change nothing |
| Mitigator.Conservation | bpf/xdp_mitigator.c:167-274 | over any run with any policy changes the three counters are the packets judged that way, together the packets seen while actuating, equal to the packet counter modulo 2^64, with one event per full batch when the ring has room |
| Mitigator.ConservationExact | bpf/xdp_mitigator.c:167-274 | below 2^64 packets, pass plus drop plus redirect is the packet counter is the number seen |
| Mitigator.FullShedAdmission | bpf/xdp_mitigator.c:186-243 | under version-3 full sheds that may change from packet to packet, a background source gets no more packets through in any window than its bucket grants at the highest rate, whatever else arrives |
| Verdicts.StoppedIsDropped | bpf/xdp_mitigator.c:186-209 | a blocked source, and a gated SYN that finds no token in the bucket of its source and tier, is dropped; the source's tier wins over the port's |
| Verdicts.NoPolicyPasses | bpf/xdp_mitigator.c:181-183 | without an acting policy everything passes uncharged |
| Verdicts.OnlyOwnBucket | bpf/xdp_mitigator.c:104-132 | only the bucket of the packet's own source and tier is ever touched |
| Verdicts.ShedShare | bpf/xdp_mitigator.c:245-261 | at a positive rate exactly that many of the million draws drop, the lowest ones, and all others redirect or pass as the redirect interface says |
| Verdicts.BinaryDrop | bpf/xdp_mitigator.c:263-273 | at a zero rate or before version 2 a packet is dropped exactly on a fault caused by the network or mixed |
| Verdicts.RaisedRateSparesIff | bpf/xdp_mitigator.c:245-269 | raising the rate spares a dropped packet if and only if the old rate was zero and the draw is not below the new one |
| Verdicts.TokenPasses | bpf/xdp_mitigator.c:212-218 | with a token a packet passes whatever the rate |
| Verdicts.OverflowShare | bpf/xdp_mitigator.c:219-242 | without one, a twentieth, a quarter or all of the rate, by tier, counts the draws that do not pass; they drop, but the critical tier is redirected whenever it can be |
| Verdicts.FirstPacket | bpf/xdp_mitigator.c:91-116 | the first packet of a source passes and leaves one second of its own tier's rate less one; if the bucket cannot be stored it passes uncharged |
| Mitigator.Cpu.BumpStat | bpf/xdp_mitigator.c:19-31 | each of the three counts is added to its own counter, wrapping |
| Mitigator.Cpu.MaybeEmitLambda | bpf/xdp_mitigator.c:33-53 | the packet counter goes up by one and an event with the given counts is appended at multiples of 1024 if the ring has room |
| Mitigator.Cpu.ConsumeToken | bpf/xdp_mitigator.c:88-132 | bucket creation, refill, cap and spend, with a lost bucket granting the packet |
| Mitigator.Cpu.Screen | bpf/xdp_mitigator.c:194-209 | a blocked source and a SYN without a token are dropped, each path with its own accounting calls; everything else goes on uncounted |
| Mitigator.Cpu.TokenPath | bpf/xdp_mitigator.c:212-243 | the five version-3 return paths, each with its own pair of accounting calls, amount to one packet of the verdict returned |
| Mitigator.Cpu.ShedPath | bpf/xdp_mitigator.c:245-273 | the five return paths of graduated shedding and of the binary drop, whose verdicts `Verdicts.ShedShare` and `Verdicts.BinaryDrop` describe, likewise |
| Mitigator.Cpu.Mitigate | bpf/xdp_mitigator.c:167-274 | on each of the twelve accounted return paths the literal counts passed agree with the verdict returned, once; the path without an acting policy counts nothing |
| Mitigator.Cpu.OnPacket | bpf/xdp_mitigator.c:167-274 | after any packets the object's own counters are the numbers of packets judged each way and its packet counter their sum, modulo 2^64 |
| Ewma.AverageWithinSamples | pkg/forecaster/ewma.go:11-30 | the average lies within any bounds on the samples |
| Ewma.AverageIsWeighted | pkg/forecaster/ewma.go:22-30 | the average of any run in closed form: each sample with the smoothing factor times a power of the rest, the first with the power alone |
| Ewma.Smoother.Update | pkg/forecaster/ewma.go:22-30 | the first sample is taken over, later ones are folded in with the smoothing factor |
| Dcic.Controller.constructor | pkg/dcic/controller.go:61-109 | which default replaces which zero or negative setting, observing for an empty mode; the initial quota is not clamped |
| Dcic.Controller.Observe | pkg/dcic/controller.go:112-193 | new state and decision, with its name and reason, for a sample in every mode; the metrics keep showing the quota, mode, counts and last step in force |
| Dcic.Controller.SetMode | pkg/dcic/controller.go:203-208 | only the mode changes, in the controller and in the metrics |
| Dcic.QuotaInRange | pkg/dcic/controller.go:129-175 | over any run with mode switches the quota stays in [floor, ceil], and from outside never moves away |
| Dcic.ChangeIsOneStep | pkg/dcic/controller.go:126-175 | a quota change is at most one step, down exactly on a fault, stamped with its time, and at least a dwell after the previous one |
| Dcic.QuotaMovesSlowly | pkg/dcic/controller.go:126-175 | over any stretch of time the quota moves at most one step plus one per full dwell |
| Dcic.ReclaimAfterQuiet | pkg/dcic/controller.go:152-175 | a reclaim has seen the configured number of non-fault samples since the quota last changed |
| Dcic.SlackSurvivesFault | pkg/dcic/controller.go:129-178 | a fault resets the slack count exactly when it asks for a smaller quota |
| Dcic.DwellCountsQuiet | pkg/dcic/controller.go:126-178 | inside a dwell every quiet sample of any run counts and no fault takes one back |
| Dcic.ReclaimAcrossFault | pkg/dcic/controller.go:126-178 | quiet, a fault inside the dwell, quiet: the quota is reclaimed although the quiet samples are not consecutive |
| Dcic.FaultRule | pkg/dcic/controller.go:116-118 | over any run a sample is a fault exactly if it is noisy by itself or the average of all samples is |
| Dcic.ShrinksIff | pkg/dcic/controller.go:126-151 | the quota goes down exactly on a fault in an acting mode, outside the dwell and above the floor, by one step or to the floor |
| Dcic.ReclaimsIff | pkg/dcic/controller.go:152-175 | it goes up exactly on a quiet sample that completes the count in an acting mode, outside the dwell and below the ceiling, by one step or to the ceiling |
| Dcic.ReportedQuota | pkg/dcic/controller.go:134-175 | the reported quota is the one in force exactly when the mode is one of the three known ones or nothing was asked for |
| LeastSquares.DenomPositive | pkg/forecaster/ring.go:91-94 | the denominator is n²(n²−1)/12, positive from two samples on, so its zero guard is dead |
| LeastSquares.SlopeOfLine | pkg/forecaster/ring.go:81-95 | samples on a line give exactly the slope of that line |
| LeastSquares.SlopeIsOptimal | pkg/forecaster/ring.go:69-100 | with its intercept the slope has the smallest squared error of all lines |
| Forecaster.Ring.constructor | pkg/forecaster/ring.go:18-26 | an empty ring with its capacity clamped to [2, 16] |
| Forecaster.Ring.Push | pkg/forecaster/ring.go:29-37 | the sample is appended to what was pushed, through the wrapped buffer |
| Forecaster.Ring.At | pkg/forecaster/ring.go:59-65 | position i of the wrapped read is sample i of the last min(k, capacity) samples |
| Forecaster.Ring.Snapshot | pkg/forecaster/ring.go:49-67 | the destination gets the window from the oldest sample on, as much as fits, and is otherwise unchanged |
| Forecaster.Ring.VelocityLS | pkg/forecaster/ring.go:70-100 | the loop computes the regression slope of the window per second, zero below two samples |
| Forecaster.VelocityOfLine | pkg/forecaster/ring.go:70-100 | a window on a line with slope b per sample moves at b divided by the interval |
| Forecaster.KinematicTracker.Observe | pkg/forecaster/kinematic.go:72-124 | new tracker state and reading for a sample, the reading being what `Forecasts` describes |
| Forecaster.SmoothedWithinSamples | pkg/forecaster/kinematic.go:72-77 | over any run the smoothed value lies within the samples seen |
| Forecaster.QuietRunNeverTrips | pkg/forecaster/kinematic.go:98-109 | a run of samples below 0.3 of the limit never faults, whatever their timing |
| Forecaster.HighValueAlwaysTrips | pkg/forecaster/kinematic.go:98-109 | with positive settings a smoothed value at or above the limit always faults |
| Forecasts.RunRule | pkg/forecaster/kinematic.go:97-108 | over any run: rising faster and faster, the projection extrapolates with constant acceleration and faults exactly at the limit from three tenths of it; otherwise the smoothed value is projected and decides |
| Forecasts.EarlyWarning | pkg/forecaster/kinematic.go:97-108 | below the limit a run faults if and only if it accelerates, is at three tenths or above, and its projection reaches the limit |
| Forecasts.Derivatives | pkg/forecaster/kinematic.go:79-95 | over any run velocity and acceleration are the changes of smoothed value and velocity over the time step |
| Forecasts.RingVelocity | pkg/forecaster/kinematic.go:88-90 | with the ring, samples on a line give that line's slope over the time step, whatever the smoothing |
| Forecasts.ForecastError | pkg/forecaster/kinematic.go:72-124 | on a parabola the projection is the true value a horizon later less curvature times horizon, so a fault there is never a false alarm |
| Forecasts.WarnsBeforeTheLimit | pkg/forecaster/kinematic.go:100-104 | two samples below half the limit already fault |
| ShedChain.OverloadFraction | pkg/forecaster/traffic_engine.go:195-210 | a fraction in [0, 1], positive exactly above the effective target |
| ShedChain.OverloadValue | pkg/forecaster/traffic_engine.go:195-210 | zero up to the target, linear from there to full utilisation, one beyond |
| ShedChain.ComputeShedPpm | pkg/forecaster/traffic_engine.go:213-229 | the multiplying loop computes the shed curve, in [0, 10^6] |
| ShedChain.Exponent | pkg/forecaster/traffic_engine.go:217-223 | the exponent for every gamma: two for none, one below two, else the whole part |
| ShedChain.ShedValue | pkg/forecaster/traffic_engine.go:213-229 | the overload to that power in parts per million, rounded down; a full overload sheds everything |
| ShedChain.FusedValue | pkg/forecaster/overload.go:13-24 | on a latency fault the largest of a half, the traffic's overload and what the latency ratio stands for |
| ShedChain.NoLatencyFault | pkg/forecaster/overload.go:13-24 | otherwise the traffic's overload |
| ShedChain.LatencyFaultShedsAll | pkg/forecaster/overload.go:13-32 | a latency fault projected at least 10^-9 above the smoothed value sheds everything for every gamma |
| ShedChain.CutIff | pkg/forecaster/shed_controller.go:18-40 | the rate is cut exactly at a hundred packets or more with drops above six fifths of the target, to nine tenths rounded down |
| ShedChain.ShedController.Adjust | pkg/forecaster/shed_controller.go:18-40 | the rate is cut to nine tenths exactly when drops overshoot; never below half, where the clamp is proved dead |
| ShedChain.ChainMonotone | pkg/forecaster/overload.go:13-32 | with everything else fixed a larger projection never lowers the fused overload, the shed rate, the adjusted rate or any tier's drop threshold, all within range |
| ShedChain.TiersOrdered | bpf/xdp_mitigator.c:73-86 | critical is never dropped more eagerly than standard, nor standard than background |
| ShedChain.WrittenMonotoneIff | pkg/forecaster/policy_bpf_sync.go:80-98 | the rate written to the policy map falls with rising load exactly when a zero rate was replaced on a fault and the higher load computes a rate that is neither zero nor full |
| ShedChain.WrittenDrops | pkg/forecaster/policy_bpf_sync.go:96-98 | a concrete fall from a full shed to a quarter |
| ShedChain.FaultNeverWritesZero | pkg/forecaster/policy_bpf_sync.go:80-98 | on a latency or traffic fault the written rate is never zero; without one it is the computed rate |
| LinkManager.ListenersAgree | pkg/exporter/nettop/linkmanager.go:118-204 | from its registration on, through any interleaving, a listener agrees with the table at every moment if and only if no update that changes the table finds its channel full |
| LinkManager.ListenerKnows | pkg/exporter/nettop/linkmanager.go:118-204 | after any run, losses included, a listener's table says about each interface what the manager's said when an event about it last found room; so it agrees exactly when nothing has changed since |
| LinkManager.StrictOrder | pkg/exporter/nettop/linkmanager.go:157-204 | for any interleaving, what a listener was handed followed by its channel is what was put in, in order |
| LinkManager.TableIsLastMessage | pkg/exporter/nettop/linkmanager.go:118-143 | for any interleaving the table says about each interface what the last message about it said |
| LinkManager.Service.Dispatch | pkg/exporter/nettop/linkmanager.go:189-203 | the next event in order is handed on |
| LinkManager.FirstEventsFit | pkg/exporter/nettop/linkmanager.go:147-183 | for any interleaving none of the first 1024 events after registration fails to fit, and while none has, the channel's content folds to the table |
| LinkManager.ReplayFits | pkg/exporter/nettop/linkmanager.go:173-183 | a replay leaves exactly 1024 free places |
| LinkManager.LossIsPossible | pkg/exporter/nettop/linkmanager.go:147-160 | an unread listener misses the 1025th event and then disagrees with the table |
| LinkManager.Service.HandleUpdate | pkg/exporter/nettop/linkmanager.go:118-143 | the table and every listener's channel after a new, deleted or other link message |
| LinkManager.Service.BroadcastAll | pkg/exporter/nettop/linkmanager.go:147-155 | every listener is offered the event once |
| LinkManager.Service.RegisterListener | pkg/exporter/nettop/linkmanager.go:170-186 | the new listener's channel holds the table in the order it was walked; no send in the loop finds it full |
| LinkManager.Service.UnregisterListener | pkg/exporter/nettop/linkmanager.go:216-226 | the first entry of the listener goes, the others stay in order |
| Kallsyms.IndexIsNearest | pkg/exporter/bpfutil/kallsyms.go:103-129 | the search finds an entry at or below the address with no start in between, and nothing exactly when the address precedes them all |
| Kallsyms.ScanCrashesIff | pkg/exporter/bpfutil/kallsyms.go:71-87 | the scan runs off the table exactly at the last start address, is out of range exactly above it, and finds nothing exactly below the first |
| Kallsyms.LookupsAgree | pkg/exporter/bpfutil/kallsyms.go:49-139 | below the last start both lookups agree on start and offset, and on everything unless several entries start exactly at the address |
| Kallsyms.LookupExplains | pkg/exporter/bpfutil/kallsyms.go:130-136 | a symbol found is a nearest entry with its start, name and module, and start plus offset is the address, less 2^64 when the distance does not fit a signed word |
| Kallsyms.ScanExplains | pkg/exporter/bpfutil/kallsyms.go:74-84 | the same of the linear scan |
| Kallsyms.LinearScan | pkg/exporter/bpfutil/kallsyms.go:71-87 | the loop computes the scan |
| Kallsyms.Symbols.Search | pkg/exporter/bpfutil/kallsyms.go:103-126 | the loop and the two checks after it compute the index of the search |
| Kallsyms.Symbols.GetSymPtFromBpfLocation | pkg/exporter/bpfutil/kallsyms.go:93-139 | the answer is the one recomputed from the table, remembered or not, and every remembered answer stays so |

## Left out

- Revisions are unbounded; the wrap of the 64-bit revision counter is not modelled.
- Client objects are records in a sequence and are referred to by position; pointer aliasing is not modelled.
- One agent is followed in `Replication`; other agents are arbitrary registrations, reads and closes at the controller.
- Every controller start gets a period that was never used before; collisions of random identifiers are not modelled.
- Recovery.Recovery: says that a continuation exists; that the scheduler picks it is a fairness assumption outside the model.
- Kallsyms.Symbols.GetSymPtFromBpfLocation: does not model which entry the cache evicts; any set may go.
- Mitigator.Cpu.Mitigate: takes the parsed header, map lookups, clock and random draw as inputs, and does not model a redirect that fails in the kernel.
- Loading and sorting the symbol table, and parsing an address string.
- Starting and stopping the link manager, and the calls into listeners.
- Retry and back-off timing of the agent, transport and message encoding.
- Floating-point rounding, locks as objects, and wall-clock scheduling.
- The traffic engine's bookkeeping, which turns scraped connection counts into a connection rate and a projected utilisation and keeps its last snapshot under a lock; the capacity estimator beside it.
- The byte layout of the policy map and of ring-buffer events, and the actuators that write cgroup and resctrl settings.
- Host tools, capture, diagnosis, user interface and scripts.
