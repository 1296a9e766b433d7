# Verified models of the chaos controller

Dafny models of the protocols and algorithms at the heart of the chaos controller, with proofs of what every run of them
keeps. `dafny verify dfyconfig.toml` checks the project.

Code that updates state step by step is modelled by classes and methods with loops, proved against specification
functions and predicates; protocols with several parties are state machines over their steps. Everything outside the
controller (the API server, the kernel, the resolver, the process, the clock) is explicit state. Its choices (moves of
users, refused writes, lost replies, failing commands, resolver answers, exit signals) are read off scripts that are left
arbitrary, so that a statement about a method is a statement about every behaviour of the outside.

| file | what it models |
|---|---|
| `types.dfy`, `text.dfy`, `channels.dfy` | shared data types, the few string operations needed, and Go channels |
| `cluster.dfy`, `reconciler.dfy` | the API server and the disruption reconciler |
| `target_selection.dfy` | the choice of targets |
| `traffic_control.dfy`, `host_filters.dfy`, `host_watcher.dfy`, `service_filters.dfy`, `service_watcher.dfy`, `injection.dfy` | tc filters, their ledgers, the watchers, and a whole network injection |
| `selection.dfy` | percentage selection by hash order |
| `schedule.dfy`, `missing_target.dfy`, `launching.dfy` | cron and rollout owners |
| `cpuset.dfy`, `iptables.dfy`, `cpu_stress.dfy`, `background_command.dfy`, `dns_responder.dfy`, `memory_stress.dfy` | the smaller kernels |

## Assumptions

- Reconciles of one object are sequential and pod listings are linearizable. The object a reconcile starts from may be any version ever stored.
- Only the controller touches the finalizer and `CleanedAt` of a disruption, and the status of a cron or rollout except for the change time of a rollout's containers.
- A read of a cron or rollout may serve any version that was stored, or none. A listing of children shows the child that is there, or misses it.
- A schedule is its `Next` function, which moves forward. An unsatisfiable cron expression, for which the cron library returns the zero time, is not such a schedule, and the source's loop would not end on it.
- Times are in seconds where the source stores seconds; a timestamp of 0 is Go's zero time.
- Hashes are arbitrary functions; where the source relies on SHA-256 having no collision, the statement asks for distinct hashes.
- The root qdisc is empty when an injection starts.
- The jump rules present at first lead to existing chains, as the kernel enforces.

## Findings

Properties that the code does not have as its comments or callers suggest, each with the exact condition under which it does:

- The run count is stored through a deep copy (controllers/disruption_controller.go:829-832). The copy in hand stays one version behind, so later status writes of the same pass conflict: at most one run is stored per pass, and a pass that stores one never completes. Undisturbed, a pass completes exactly when it is due, its selection does not fail and there is nothing to do for any chosen target (`Reconciler.Inject`, `Reconciler.FirstPass`). A start that does not fail therefore serves at most one target (`Reconciler.StartTwice`).
- A target whose status lacks a kind that has no pod makes the pass fail (`Reconciler.InjectTarget`).
- Orphaned chaos pods of a node disruption are deleted although their node exists, unless a pod has its name: targets are looked up as pods (`Reconciler.HandleOrphans`).
- A failed listing of matching targets counts as no match and drops every current target (`TargetSelection.SelectTargets`).
- `removeServiceFiltersInList` called with one slice as both arguments skips every second filter (`ServiceFilters.RemoveFromItself`), so a modified service with three or more filters leaves filters in the kernel that no ledger lists, and so does an event that cannot be handled; an event that runs out of priorities leaves some as well, unless none was left at all (`ServiceWatching.SurvivorLeaks`, `ServiceWatching.TightReplaced`, `ServiceWatching.TightPurged`, `ServiceWatching.TightFoundered`).
- A service whose protocol expands to TCP and UDP records one priority of two, so deleting by the ledger leaves one behind (`ServiceWatching.AddThenClear`); the entry added for a headless service is always of that kind.
- A refresh of hosts that fails after the old filters were deleted leaves a ledger that lists them still; `HostWatching.HostWatcher.Tick` says exactly when, and `HostWatching.RefreshFails` is a concrete case.
- A context that is cancelled while the allowed hosts are served is no error (injector/network_disruption.go:1274-1278): the injection goes on to disrupt, and the allowed hosts not yet served are not spared (`NetworkInjection.Injection.Inject`, `NetworkInjection.CancelledContext`).
- The comment at injector/network_disruption.go:556 says that the safeguards must be added last to be used first. They are added first, and being first is what makes them win (`NetworkInjection.Injection.SpareFirst`).
- An instant runs again when a crash comes before its child is recorded and the child ends, or when a reconcile reads the owner as it was before the record; in both cases exactly if the next point of the schedule is still ahead and the tolerance has not passed (`Launching.EndedTooEarly`, `Launching.StaleReadRepeats`).
- A cron or rollout whose clearing status write was refused may delete itself although it saw its target (`MissingTarget.RefusedClearExpires`); and so may one that reads a version from before a clear that was stored, since the deletion carries no version (`Launching.ClearedYetDeleted`). The deletion is justified, for looks at different times, exactly when the mark in hand is still the stored one and every look that saw the target was cleared by it or a later one (`Launching.SelfDeletionIsJustified`); a reconcile whose read shows the stored mark still has the stored mark in hand when it decides (`Launching.RunKnowsMark`).
- `Clear` deletes a dedicated chain that was there before, if it was empty and unused (`IpTables.LostChain`), and succeeds when the chain cannot be deleted, which leaves an empty one (`IpTables.LeftoverChain`); `IpTables.CleanedIsBase` says exactly when the tables are the original ones, and `IpTables.IPTables.Cycles` when they are if no command fails.
- `KeepAlive` promises a single goroutine however often it is called; when it follows a `Stop` before the goroutine had a turn, there are two (`BackgroundCommand.SingleGoroutine`). The quit channel never ends a goroutine: while there is a ticker the channel is empty.
- `Clean` of a CPU stress that was not injected closes a nil channel (`CpuStress.CleanTooEarlyPanics`).
- With cgroup v2 the product of limit and percentage can exceed 64 bits (`MemoryStress.TargetIsExact`).

## Model

| member | source | states |
|---|---|---|
| `Reconciler.Run` | controllers/disruption_controller.go:87-478 | over every history of user edits, deletions, pod exits, clock moves and reconciles of arbitrarily stale cached objects, with every API call interleaved, refused or with its reply lost: chaos pods exist only under the finalizer and without `CleanedAt`; at most one pod per target and kind; once an object was seen with `CleanedAt`, no pod exists while that object, or none, is there |
| `Cluster.CleanForGood` | controllers/disruption_controller.go:335-349 | in a recorded run, no state after `CleanedAt` was stored holds a chaos pod as long as that object, or none, is there |
| `Cluster.PodsOnlyUnderFinalizer` | controllers/disruption_controller.go:281-302 | in a recorded run, no chaos pod outlives the finalizer, and no target and kind has two |
| `Cluster.RecordedPair` | controllers/disruption_controller.go:87-478 | any two states of a run are safe, and what was declared clean stays on record |
| `Cluster.ApplyKeepsInv` | controllers/disruption_controller.go:87-478 | no move of the outside world breaks the invariant, takes the finalizer away or adds a pod |
| `Cluster.UpdateMetaKeepsInv` | controllers/disruption_controller.go:379-383 | an update of the finalizer, fenced by the resource version, is safe when it keeps the finalizer or the object is clean |
| `Cluster.UpdateStatusKeepsInv` | controllers/disruption_controller.go:335-341 | a fenced status write is safe when it agrees on `CleanedAt`, or sets it on a deleted object without pods |
| `Cluster.CreatePodKeepsInv` | controllers/disruption_controller.go:785-790 | creating a pod is safe under a live finalizer for a pair that has none |
| `Cluster.VersionIsCopy` | controllers/disruption_controller.go:87-96 | an object read from any past version is a safe copy: if it is still current, it shows what the server holds |
| `Cluster.ProgressKeepsCopy` | controllers/disruption_controller.go:379-383 | a copy that has become stale can never become current again |
| `Reconciler.Reconcile` | controllers/disruption_controller.go:238-478 | from any cached version, the invariant holds in every state passed through; the run count stored with the object grows by at most one, replies lost or not; undisturbed, a deleted object without pods is first marked clean, then kept for the delay, then released |
| `Reconciler.Finalize` | controllers/disruption_controller.go:248-353 | the deletion branch: every state passed through is safe and no run is stored; undisturbed and without pods, the object is marked clean, kept until the delay has passed, then released |
| `Reconciler.MarkStuck` | controllers/disruption_controller.go:251-279 | undisturbed, a deletion is flagged exactly when it lasts too long and pods are left |
| `Reconciler.CleanDisruption` | controllers/disruption_controller.go:842-879 | reports clean only when no pod is left; undisturbed, every pod left is under deletion |
| `Reconciler.Inject` | controllers/disruption_controller.go:385-474 | the live branch: the stored run count grows by at most one, and not at all in a finished pass; the targets it goes on with are a choice the selection may make, and undisturbed and from a current copy it gets that far if and only if the disruption is due and the selection does not fail; then the pass is finished if and only if there is nothing to do for any chosen target, stated on the object, the observation and the state before when no target has to be drawn, and otherwise for the targets the object is stored with; where their statuses name every kind, that is if and only if every chosen target is idle, and else a run is stored |
| `Reconciler.Retarget` | controllers/disruption_controller.go:428-431 | selection and its fenced status write leave the pass entitled to create pods and store no run; the copy then holds targets the selection may pick, and those are stored if any had to be drawn; undisturbed and from a current copy it goes on if and only if the targets are fixed or the chaos pods of every target that may be added can be listed, and nothing changes but the object |
| `Reconciler.SettledChoice` | controllers/disruption_controller.go:385-474 | when no target has to be drawn, whether there is anything to do depends on the object, the observation and the state before only |
| `Reconciler.AddedIsWork` | controllers/disruption_controller.go:657-687 | for a target that was added, there is nothing to do if and only if it lacks no pod or can get none |
| `Reconciler.StartInjection` | controllers/disruption_controller.go:610-691 | undisturbed, success leaves every chosen target with all its pods or unable to get them; a start that finds that creates nothing; at most one run is stored, and then the copy in hand is behind; with nothing to do the object is untouched, else the start fails, or leaves the copy behind after giving exactly one target that lacks pods exactly those it lacks; the targets stored stay those of the copy |
| `Reconciler.StartTwice` | controllers/disruption_controller.go:610-691 | two starts with no change in between, counted from the state before both: no pod is created if there is nothing to do, and else exactly the pods that one target lacks; the second succeeds when every status names every kind |
| `Reconciler.InjectAll` | controllers/disruption_controller.go:656-690 | an undisturbed success leaves every target with all its pods or unable to get them; targets that are found so get nothing; one target that lacks pods gets exactly those, if there is one; the stored run count grows by at most one, and then the copy in hand is behind |
| `Reconciler.InjectTarget` | controllers/disruption_controller.go:657-687 | the walk over the kinds of one target: pods are created only for that target; undisturbed, a target with nothing to do is passed by, and else the walk fails, or creates exactly the pods it lacks, stores a run and leaves the copy behind |
| `Reconciler.OthersUnaffected` | controllers/disruption_controller.go:656-688 | injecting one target leaves the others as they were |
| `Reconciler.DropUntargeted` | controllers/disruption_controller.go:636-642 | undisturbed, every pod left of a target that is not chosen is under deletion, and pods of chosen targets are untouched |
| `Reconciler.CreateChaosPods` | controllers/disruption_controller.go:694-836 | undisturbed, a blocked target is left alone; else a missing pod leads to one for each kind and to a stored run if the copy was current, to a failure if not; a stored run leaves the copy in hand behind |
| `Reconciler.Preflight` | controllers/disruption_controller.go:710-764 | a vanished target, an expiring disruption, no kind or exhausted runs stop the creation, and only those do |
| `Reconciler.CreateMissing` | controllers/disruption_controller.go:766-820 | undisturbed, every kind has a pod on the target, and something was created exactly when one was missing |
| `Reconciler.CreateOne` | controllers/disruption_controller.go:770-819 | a pod is created only when none is found for the pair |
| `Reconciler.CountRun` | controllers/disruption_controller.go:822-833 | the stored run count grows by at most one, even when the reply is lost, and the copy in hand is behind from then on; undisturbed, a run is stored exactly when the copy was current |
| `Reconciler.RunsOnce` | controllers/disruption_controller.go:822-833 | a copy that was left behind by a stored run stores no further one |
| `Reconciler.PassedByIsIdle` | controllers/disruption_controller.go:657-687 | for a target whose status names every kind, nothing to do means that it has its pods or cannot get them |
| `Reconciler.FirstPass` | controllers/disruption_controller.go:385-474 | a concrete pass: the pod is created and the run stored, and the pass is not finished |
| `Reconciler.HandleTerminations` | controllers/disruption_controller.go:891-922 | undisturbed, exactly the pods that may be released are gone, whatever the order |
| `Reconciler.HandleTermination` | services/chaospod.go:138-226 | the finalizer of a pod under deletion is dropped exactly when the verdict is to release it; a stuck pod flags the disruption |
| `Reconciler.HandleOrphans` | services/chaospod.go:395-442 | undisturbed, exactly the chaos pods whose target is the name of a pod that exists are left; a pod that cannot be released is not deleted |
| `Reconciler.UpdateInjectionStatus` | controllers/disruption_controller.go:485-607 | the write succeeds only from a current copy and leaves `CleanedAt`, the finalizer and the stored run count alone; undisturbed it succeeds from every current copy, and what has a ready pod is marked as injected, unless the disruption is over, and nothing else is |
| `Reconciler.MarkReady` | controllers/disruption_controller.go:548-572 | exactly the targets and kinds with a ready pod are marked as injected, whatever the order of the list |
| `Reconciler.ApiServer.UpdateStatus` | controllers/disruption_controller.go:339-341 | a stored status write comes from the current version; a changed one makes every older copy stale; a stored run makes the copy stale even when the reply is lost |
| `Reconciler.ApiServer.Interfere` | controllers/disruption_controller.go:93-96 | between two calls the world makes any number of moves, none of which adds a pod, takes the finalizer away or declares the object clean |
| `TargetSelection.SelectTargets` | controllers/disruption_controller.go:978-1082 | all chosen targets match; their number is min(desired, live + eligible); live ones are kept when scaling up and are the only ones left when scaling down; additions were eligible; a static non-empty choice is untouched; a failed listing of the matching drops every target; the selection fails if and only if the chaos pods of some target that may be added cannot be listed |
| `TargetSelection.Choose` | controllers/disruption_controller.go:1025-1067 | the same for the sets, with the outcome telling which step ended the pass, failure if and only if some listing fails |
| `TargetSelection.SettledPicks` | controllers/disruption_controller.go:1025-1067 | when the wanted number is that of the live ones, or nothing is wanted, or the choice is fixed, there is only one choice |
| `TargetSelection.AddedIsFresh` | api/v1beta1/disruption_types.go:1113-1122 | what was added was eligible and has a status for every kind, none injected |
| `TargetSelection.Adjust` | controllers/disruption_controller.go:1057-1067 | targets are added or removed to reach the wanted number exactly |
| `TargetSelection.GetEligibleTargets` | controllers/disruption_controller.go:1382-1506 | eligible are exactly the matching targets that are not current and not actively disrupted, unless that is allowed and no kind is shared |
| `TargetSelection.RemoveDeadTargets` | api/v1beta1/disruption_types.go:1097-1109 | exactly the matching targets are kept, with their statuses |
| `TargetSelection.AddTargets` | api/v1beta1/disruption_types.go:1113-1122 | the given number of eligible targets is added, the current ones are kept |
| `TargetSelection.RemoveTargets` | api/v1beta1/disruption_types.go:1125-1129 | the given number of targets is removed, the rest keep their statuses |
| `TrafficControl.Tc.GetNewPriority` | network/tc.go:265-279 | the 32-bit counter is incremented modulo 2^32; a priority is refused from 3048 on |
| `TrafficControl.Tc.AddFilter` | network/tc.go:171-227 | one fresh priority on all interfaces; a failure leaves the filter on those served, at a priority not returned; in a watcher's turn each command goes on record as an allowed one |
| `TrafficControl.Tc.DeleteFilter` | network/tc.go:246-252 | exactly that priority of that interface goes, or nothing; in a watcher's turn it is on record as an allowed command |
| `TrafficControl.Tc.RemoveFilter` | injector/network_disruption.go:663-671 | the priority goes from every interface, or a failure stops in between; nothing else changes |
| `TrafficControl.InterleavedTrans` | injector/network_disruption.go:1140-1163 | stretches of allowed commands make up one |
| `TrafficControl.PrioritiesNeverReused` | network/tc.go:265-279 | two allocations from the same counter get the same value exactly when they are a multiple of 2^32 apart; before the overflow they increase |
| `TrafficControl.CounterAdds` | network/tc.go:265-279 | allocations add up modulo 2^32 |
| `TrafficControl.SparedPacketIsSpared` | injector/network_disruption.go:553-592 | when every sparing filter precedes every disrupting one, a packet that a sparing filter matches has a unique first match, and it spares |
| `TrafficControl.ChurnedTrans` | injector/network_disruption.go:1169-1257 | deleting own priorities and adding above the counter composes over steps |
| `HostFilters.InstallHost` | injector/network_disruption.go:1302-1334 | per IP and protocol one filter at consecutive priorities, and a ledger listing exactly those; without tc failures it succeeds if and only if they fit below the limit |
| `HostFilters.NeedsUpdate` | injector/network_disruption.go:1200-1225 | a host is left alone if and only if its resolved IPs are those of its filters and the resolver repeats none |
| `HostWatching.HostWatcher.AddHost` | injector/network_disruption.go:1273-1338 | one host is served from the next answer of the resolver; without tc failures it is served if and only if the context is alive, the resolver answers and its filters fit below the limit, and otherwise no filter is added unless there was room for one |
| `HostWatching.HostWatcher.AddFiltersForHosts` | injector/network_disruption.go:1270-1341 | each host's list names exactly its live filters, every IP and protocol of its answer is covered on every interface, and there are no other new filters; without tc failures it succeeds if and only if every host can be served in its turn; a cancelled context is no error, and then exactly the hosts before it are covered and the ledger is empty |
| `HostWatching.HostWatcher.Start` | injector/network_disruption.go:1148-1166 | the first ledger equals the kernel and follows the resolver; it lists the hosts if and only if the context stayed alive, and without tc failures it succeeds if and only if all can be served |
| `HostWatching.HostWatcher.Probe` | injector/network_disruption.go:1186-1225 | a host is judged on what the resolver said, narrowed to its percentage |
| `HostWatching.HostWatcher.ChangedHosts` | injector/network_disruption.go:1184-1226 | the changed hosts are exactly those resolved to something else, in whatever order the map is walked |
| `HostWatching.HostWatcher.RemoveHosts` | injector/network_disruption.go:1229-1239 | only priorities of changed hosts are cleared; without tc failures, all of them |
| `HostWatching.HostWatcher.Tick` | injector/network_disruption.go:1176-1255 | one turn: deletes only priorities it was given, adds only disrupting filters; refreshed hosts follow the resolver, others keep their list; without tc failures the refresh fails if and only if some changed host cannot be served, and the ledger stays equal to the kernel if and only if all can be, or none had a filter and serving fails before the first, judged on the answers, the context and the counter before the turn |
| `HostWatching.HostWatcher.RefreshHosts` | injector/network_disruption.go:1228-1250 | the changed hosts lose their filters and are served anew: fails if and only if one cannot be served, keeps the ledger exact under the condition of the turn |
| `HostWatching.TickExact` | injector/network_disruption.go:1228-1250 | exactness over a turn |
| `HostWatching.NotServed` | injector/network_disruption.go:1241-1245 | after a failed refresh the ledger is right if and only if no changed host had a filter and none was added |
| `HostWatching.RefreshFails` | injector/network_disruption.go:1241-1245 | a concrete watcher and turn: the host resolves to another IP, the resolver then fails, and the host keeps a ledger entry whose filter is gone |
| `HostWatching.NotedIps` | injector/network_disruption.go:1304-1334 | the filters of a host are for exactly the given IPs |
| `HostWatching.PlanHas` | injector/network_disruption.go:1304-1334 | every IP and every protocol of the host has its filter in the plan |
| `HostWatching.FirstFailure` | injector/network_disruption.go:1273-1338 | the first host that cannot be served decides whether anything was added |
| `HostWatching.CoveredMore` | injector/network_disruption.go:1273-1338 | serving one more host covers its IPs, keeps the others covered and adds nothing else |
| `Selection.SelectByPercentage` | network/selection.go:33-74 | ceil(n*p/100) IPs in hash order, nothing left out hashing below; for distinct IPs and hashes, exactly the share of least hash; everything for percentages outside 1..99 |
| `Selection.OrderDoesNotMatter` | network/selection.go:33-74 | selections from two orders of the same IPs pick the same ones |
| `Selection.ShareSize` | network/selection.go:47-51 | the size of the share |
| `Selection.ShareGrows` | network/selection.go:33-74 | a higher percentage only adds IPs |
| `Selection.AtMostOneEvicted` | network/selection.go:33-74 | one more IP evicts at most one of the chosen |
| `Selection.SortSlice` | network/selection.go:62-65 | sorted by hash, a permutation |
| `ServiceFilters.AddServiceFilters` | injector/network_disruption.go:625-649 | all protocols of all services are installed in order; the ledger keeps the last priority of each service; without tc failures it succeeds if and only if the filters fit below the limit, and a failure leaves unlisted filters if and only if there was room for one |
| `ServiceFilters.BuildServices` | injector/network_disruption.go:689-738 | one service per port, in order, without repetition |
| `ServiceFilters.DesiredServices` | injector/network_disruption.go:814-820 | the services of the pods that have an IP |
| `ServiceFilters.SelectServices` | injector/network_disruption.go:760-810 | all filters of the chosen IPs, each as often as given; for distinct hashes the IPs are the share of least hash |
| `ServiceFilters.GroupByIp` | injector/network_disruption.go:765-786 | the distinct IPs and the services of each, as often as given |
| `ServiceFilters.KeepWanted` | injector/network_disruption.go:828-837 | kept and missing make up the wanted multiset, missing is what the old ledger lacks; exactly the dropped priorities are cleared; nothing dropped is still wanted; it fails only if tc does |
| `ServiceFilters.ExchangeEndpoints` | injector/network_disruption.go:813-845 | the ledger equals the wanted filters as a multiset, survivors keep their priority, the kernel loses exactly the dropped priorities and gains exactly the new ones; without tc failures it succeeds if and only if the lacking ones fit below the limit; a failure still drops exactly the unwanted and leaves unlisted filters if and only if there was room for one |
| `ServiceFilters.RemoveServices` | injector/network_disruption.go:674-686 | on distinct slices: the multiset difference, with exactly those priorities cleared |
| `ServiceFilters.RemoveFromItself` | injector/network_disruption.go:674-686 | the aliased call: with distinct services exactly the odd positions before the last survive, and everything goes if and only if there are at most two; for any list of at most two everything goes; it fails only if tc does |
| `ServiceFilters.DropTurn` | injector/network_disruption.go:675-683 | one turn of the aliased loop over the shifted array |
| `ServiceFilters.ShiftLeft` | injector/network_disruption.go:681-681 | append on a slice shifts the array in place |
| `ServiceFilters.SkippingStep` | injector/network_disruption.go:675-683 | what a shift makes the range loop read next |
| `ServiceWatching.AddThenClear` | injector/network_disruption.go:636-641 | adding and then deleting by the ledger restores the kernel if and only if every service names one protocol |
| `ServiceWatching.HeadlessIsMultiProtocol` | injector/network_disruption.go:884-887 | the entry added for a headless service names no protocol, hence expands to two |
| `ServiceWatching.SurvivorLeaks` | injector/network_disruption.go:906-911 | after a modified service with three or more filters, the second one stays in the kernel and on no ledger |
| `ServiceWatching.TightReplaced` | injector/network_disruption.go:906-914 | the ledgers stay right if there were at most two filters and, without repeated services, only if |
| `ServiceWatching.TightPurged` | injector/network_disruption.go:1069-1070 | the same for a ledger that is purged after an error and forgotten |
| `ServiceWatching.TightFoundered` | injector/network_disruption.go:813-845 | a batch that runs out of priorities: the ledgers are right if none was left and nothing that was kept is forgotten, and else a filter is in the kernel and on no ledger |
| `ServiceWatching.StarvedPurged` | injector/network_disruption.go:1066-1074 | a service event that ran out of priorities, and the purge after it |
| `ServiceWatching.PodsPurged` | injector/network_disruption.go:1084-1092 | a pod event that ran out of priorities, and the purge after it |
| `ServiceWatching.Watcher.SetEndpoints` | injector/network_disruption.go:891-894 | the endpoint ledger becomes the wanted multiset and stays equal to the kernel for single-protocol services; without tc failures it fails only for lack of priorities |
| `ServiceWatching.Watcher.AppendServices` | injector/network_disruption.go:899-905 | appended in order; ledgers stay equal to the kernel |
| `ServiceWatching.Watcher.AppendPods` | injector/network_disruption.go:966-972 | appended in order; ledgers stay equal to the kernel |
| `ServiceWatching.Watcher.DropServices` | injector/network_disruption.go:915-919 | multiset difference; ledgers stay equal to the kernel |
| `ServiceWatching.Watcher.DropPods` | injector/network_disruption.go:999-1003 | multiset difference; ledgers stay equal to the kernel |
| `ServiceWatching.Watcher.ReplaceServices` | injector/network_disruption.go:906-914 | the ledger is the new list; it equals the kernel if at most two filters were replaced and, without repeated services, only if |
| `ServiceWatching.Watcher.WantedEndpoints` | injector/network_disruption.go:816-825 | all endpoints, or those of a share of the IPs, each as often as it is built |
| `ServiceWatching.Watcher.UpdateServices` | injector/network_disruption.go:896-920 | by kind of event: appended, replaced or removed; the ledgers stay right, for a modified service under the condition above; without tc failures it fails only for lack of priorities |
| `ServiceWatching.Watcher.HandleService` | injector/network_disruption.go:848-927 | the two ledgers after a service event, errors included; clears only priorities it was given; the ledgers stay right, for a modified service under the condition above; without tc failures the event is handled if and only if it is sound and there is room |
| `ServiceWatching.Watcher.FollowService` | injector/network_disruption.go:884-920 | the part of a service event that changes filters: endpoints first, then the service's own; without tc failures it fails if and only if priorities do not last, with what is left then |
| `ServiceWatching.Watcher.PodAdded` | injector/network_disruption.go:960-977 | nothing, new filters, or a place on the waiting list |
| `ServiceWatching.Watcher.PodModified` | injector/network_disruption.go:978-998 | a pod that waited for an IP gets its filters once it has one |
| `ServiceWatching.Watcher.HandlePod` | injector/network_disruption.go:930-1011 | the ledger and the waiting list after a pod event; clears only priorities it was given; the ledgers stay right; without tc failures the event is handled if and only if it is sound and there is room |
| `ServiceWatching.Watcher.OnService` | injector/network_disruption.go:1059-1076 | after an error the ledger is purged and forgotten; without tc failures the event is handled if and only if it is sound and there is room; the ledgers stay right if no ledger of more than two filters was deleted from itself and, without repeated services, only if; when priorities run out that is so if none was left at all and no kept endpoint was forgotten, and otherwise they are wrong |
| `ServiceWatching.Watcher.OnPod` | injector/network_disruption.go:1077-1094 | after an error the ledger is purged and forgotten; without tc failures the event is handled if and only if it is sound and there is room; the ledgers stay right under the same condition, and when priorities run out only if none was left at all |
| `ServiceWatching.Watcher.Purge` | injector/network_disruption.go:1069-1069 | the aliased deletion, with what it leaves behind |
| `NetworkInjection.Injection.Inject` | injector/network_disruption.go:553-619 | whenever anything disrupts, the safeguards are in the sealed table; after success so are the allowed hosts served while the context was alive, for every IP and protocol, and nothing else; hosts are watched if and only if the context stayed alive; everything is disrupted when no host or service is given, and then, without tc failures, it succeeds exactly when the priorities last and no allowed host fails to resolve in time; from the last sparing filter on, every command is one the watcher of the hosts is allowed |
| `NetworkInjection.Injection.AddSafeguards` | injector/network_disruption.go:557-592 | the safeguards hold consecutive priorities, all sparing |
| `NetworkInjection.Injection.SpareFirst` | injector/network_disruption.go:557-597 | every sparing filter is added before any disrupting one; the allowed hosts spared are those before the first turn with a cancelled context, and all of them if and only if there is none |
| `NetworkInjection.Injection.DisruptAll` | injector/network_disruption.go:601-608 | TCP and UDP to anywhere are disrupted on every interface |
| `NetworkInjection.Injection.WatchServices` | injector/network_disruption.go:1100-1145 | one fresh watcher per service, for its ports and percentage, or none if a service cannot be read |
| `NetworkInjection.Injection.Run` | injector/network_disruption.go:1014-1097 | any sequence of host turns, service and pod events keeps the table sealed, after every single command: up to the boundary it is unchanged and spares, above it everything disrupts; every command is one its watcher is allowed; no two watchers hold the same priority; without tc failures every event is recorded with what it does to every ledger |
| `NetworkInjection.Injection.HostStep` | injector/network_disruption.go:1172-1255 | a host turn cannot break the seal nor touch a filter of a service; the hosts' ledger stays exact under the exact condition of the turn; with no host watched nothing changes |
| `NetworkInjection.Injection.ServiceStep` | injector/network_disruption.go:1056-1095 | a service or pod event cannot break the seal, nor touch a filter of a host or of another service; the ledgers concerned stay right under the exact condition of the event |
| `NetworkInjection.SealedChurned` | injector/network_disruption.go:652-686 | whoever only clears priorities above the boundary and adds disrupting filters keeps the seal |
| `NetworkInjection.SealedPacketSpared` | injector/network_disruption.go:553-619 | a packet that a sealed filter matches is spared |
| `NetworkInjection.GuardedPacketSpared` | injector/network_disruption.go:557-592 | a packet that a safeguard matches is spared, whatever the watchers did |
| `NetworkInjection.AllowedPacketSpared` | injector/network_disruption.go:594-597 | a packet of any protocol of a covered allowed host, from or to one of its IPs, is spared, whatever the watchers did |
| `NetworkInjection.KeptIp` | injector/network_disruption.go:1288-1300 | which IPs of an allowed host are covered: all of them, or, for distinct IPs and hashes, exactly the share of least hash |
| `NetworkInjection.OthersNotSpared` | injector/network_disruption.go:553-619 | a packet is spared on an interface only if a safeguard of that interface matches it, or the filter of a served allowed host for an IP that its narrowed answer may keep |
| `NetworkInjection.DefiniteMatches` | injector/network_disruption.go:1288-1300 | with distinct IPs and hashes, an IP that may be kept is one that is kept |
| `NetworkInjection.SealVerdict` | injector/network_disruption.go:553-619 | what a sealed table does to any packet: it is spared on an interface if a safeguard of it or a covered allowed host matches, and only if one may match; if and only if, when no narrowing meets equal IPs or hashes |
| `NetworkInjection.Injection.InjectAndRun` | injector/network_disruption.go:553-619 | an injection, successful or not, and then any events: after success that verdict on any packet and interface, after every single command from the last sparing filter on, and in any case safeguards are spared once anything is disrupted, as long as the events do not outnumber the 32-bit counter |
| `NetworkInjection.CancelledContext` | injector/network_disruption.go:1274-1278 | a concrete injection: the context is cancelled before the allowed host is served, the injection succeeds, everything is disrupted and the host is not spared |
| `NetworkInjection.ExactThroughout` | injector/network_disruption.go:1172-1255 | over a whole run without tc failures: the hosts' ledger is exact throughout if and only if every host turn finds its changed hosts servable, or nothing to lose |
| `NetworkInjection.TightThroughout` | injector/network_disruption.go:1056-1095 | over a whole run, priorities running out or not: a service's ledgers are right throughout if no event deletes a ledger of more than two filters from itself or runs out of priorities after leaving an unlisted filter and, without repeated services, only if |
| `NetworkInjection.Injection.RunLedgers` | injector/network_disruption.go:1014-1097 | so at the end of such a run, priorities running out or not, the ledgers tell the truth |
| `NetworkInjection.ExactFrame` | injector/network_disruption.go:1056-1095 | a service's events leave the hosts' filters alone |
| `NetworkInjection.TightFrame` | injector/network_disruption.go:1172-1255 | the work of another watcher leaves a service's filters alone |
| `NetworkInjection.InterleavingsKeepSeal` | injector/network_disruption.go:1140-1163 | the same for every interleaving of single tc commands of any number of watchers that only ask for priorities and add and delete at priorities they were given |
| `NetworkInjection.CommandsKeepSeal` | injector/network_disruption.go:1140-1163 | the seal holds after every single command of such an interleaving |
| `NetworkInjection.Injection.Act` | injector/network_disruption.go:1056-1255 | every command of a host turn, a service or pod event, errors and purges included, is one that its watcher is allowed: it asks, adds disrupting filters at priorities it was given and deletes only such; what everyone was given stays accounted for |
| `MissingTarget.MarkIsHonest` | controllers/disruption_cron_controller.go:257-332 | if no look that saw the target was left uncleared, a mark at t means a look at t missed the target and none saw it since; for looks at different times, if and only if |
| `MissingTarget.MissedSince` | controllers/disruption_cron_controller.go:257-332 | finds the look that set the mark: it missed the target, and none saw it since |
| `MissingTarget.MarkStands` | controllers/disruption_cron_controller.go:290-332 | a mark stands as long as no clearing write is stored |
| `MissingTarget.SightContradicts` | controllers/disruption_cron_controller.go:325-332 | a look that saw the target and was left uncleared makes the mark wrong |
| `MissingTarget.StaleMarkIsWrong` | controllers/disruption_cron_controller.go:290-332 | a mark that once stood and stands no more is contradicted by a look that saw the target since |
| `MissingTarget.ExpiryIsJustified` | controllers/disruption_cron_controller.go:276-287 | an owner that expires missed its target at every look for longer than the threshold if no look that saw it was left uncleared and, for looks at different times, only if |
| `MissingTarget.RefusedClearExpires` | controllers/disruption_cron_controller.go:325-332 | for every history: after a refused clearing write the owner expires although it saw its target after the mark |
| `MissingTarget.SeenYetDeleted` | controllers/disruption_cron_controller.go:290-295 | a concrete such case |
| `Schedule.GetNextSchedule` | controllers/disruption_cron_controller.go:336-363 | terminates with the last missed point of the chain and the next one, for every schedule that moves forward |
| `Schedule.GreatestMissedPoint` | controllers/disruption_cron_controller.go:343-358 | for a calendar: the greatest point after the earliest time up to now, if there is one |
| `Schedule.LastMissedLater` | controllers/disruption_cron_controller.go:343-358 | as time passes the last missed point stays until the next one is reached, and then is one after it |
| `Schedule.LeastUpcomingPoint` | controllers/disruption_cron_controller.go:362-362 | for a calendar: the least point after now |
| `Schedule.MostRecent` | controllers/cron_rollout_helpers.go:201-215 | the latest time of the children, zero for none |
| `Launching.OnceEach` | controllers/disruption_cron_controller.go:123-238 | over every run with crashes, lost and refused writes, unseen children and stale reads, if no child ends before its time is recorded and no read lags behind the last recorded run: at most one child, strictly increasing instants each used once, history the last five stored runs |
| `Launching.StepSound` | controllers/disruption_cron_controller.go:62-238 | every step of the protocol keeps the invariant behind that |
| `Launching.RunSound` | controllers/disruption_cron_controller.go:62-238 | and so does every run |
| `Launching.RunSteady` | controllers/disruption_cron_controller.go:242-332 | with no assumption: every copy and every stored version is one the owner had, a copy of the stored version is the stored object, the mark is what the looks at the target say, the history what was stored |
| `Launching.CreateSound` | controllers/cron_rollout_helpers.go:219-228 | creating under the fixed name, which is a lock, keeps instants increasing and children single |
| `Launching.RecordSound` | controllers/disruption_cron_controller.go:213-235 | recording keeps the history the bounded suffix of stored runs |
| `Launching.SyncSound` | controllers/disruption_cron_controller.go:242-250 | the last schedule time is taken from the child |
| `Launching.SelfDeletionIsJustified` | controllers/disruption_rollout_controller.go:202-271 | over every run of a cron or rollout, stale reads included: a self-deletion follows only looks that missed the target for longer than the threshold if the mark it acts on is still the stored one and no look that saw the target was left uncleared and, for looks at different times, only if |
| `Launching.InformedDeletionIsJustified` | controllers/disruption_cron_controller.go:257-332 | in every run whose reads show the stored mark: justified if no look that saw the target was left uncleared, in particular if every such look was stored, and for looks at different times only if |
| `Launching.RunKnowsMark` | controllers/disruption_cron_controller.go:62-332 | in such a run a reconcile always has the stored mark in hand |
| `Launching.FreshIsInformed` | controllers/disruption_cron_controller.go:62-65 | runs whose reads are all of the stored object are of that kind |
| `Launching.RunTraced` | controllers/disruption_cron_controller.go:257-332 | every copy and every stored version shows a mark that the looks of some beginning of the run left |
| `Launching.ClearedYetDeleted` | controllers/disruption_cron_controller.go:276-319 | for every owner and every such run past the threshold: the target is missed, seen and missed again, every look is stored, and a reconcile that reads the version before the clear deletes the owner |
| `Launching.DeletedOnClearedMark` | controllers/disruption_cron_controller.go:310-319 | a concrete such run |
| `Launching.RunsAreOnSchedule` | controllers/disruption_cron_controller.go:141-191 | every instant used by a cron is a point of its schedule |
| `Launching.LaunchesTestChanges` | controllers/disruption_rollout_controller.go:113-180 | over every run of a rollout, between two launches its containers changed |
| `Launching.DueRunIsLaunched` | controllers/disruption_cron_controller.go:102-201 | an undisturbed reconcile, of the stored owner or a stale copy, launches the run that is due for what it reads, and none if none is; the whole state after it |
| `Launching.EndedTooEarly` | controllers/disruption_cron_controller.go:207-211 | without patience: the controller crashes before the run is recorded, the child ends, and some time passes; the next reconcile uses the same instant if and only if the next point of the schedule is still ahead and the tolerance has not passed, and else a later one or none |
| `Launching.StaleReadRepeats` | controllers/disruption_cron_controller.go:62-201 | the run was recorded and its child has ended; a reconcile that reads the version before the record uses the same instant under exactly the same condition |
| `Launching.DueAgain` | controllers/disruption_cron_controller.go:141-191 | what is due later: the same run if and only if it is still due, else a later one or none |
| `Launching.InstantUsedTwice` | controllers/disruption_cron_controller.go:207-211 | a concrete such run |
| `Launching.OwnerReconciler.UpdateLastScheduleTime` | controllers/disruption_cron_controller.go:242-250 | is exactly the `Sync` step of the protocol |
| `Launching.OwnerReconciler.DecideRun` | controllers/disruption_cron_controller.go:134-186 | is exactly the `Decide` step of the protocol, for crons and rollouts |
| `Launching.OwnerReconciler.RecordRun` | controllers/disruption_cron_controller.go:213-235 | is exactly the `Record` step of the protocol, with the history cut to five |
| `Launching.OwnerReconciler.Reconcile` | controllers/disruption_cron_controller.go:62-238 | a reconcile, from the stored owner or any stale version, extends the run by the steps of one pass, in order and as far as it gets, and by moves of the world in between; in a patient run there is at most one child and the instants increase |
| `CpuSet.Parse` | cpuset/cpuset.go:286-385 | succeeds exactly when every element of the list means something, with the union of the meanings |
| `CpuSet.ParseRange` | cpuset/cpuset.go:303-381 | one element: a number or an ascending range below 8192 |
| `CpuSet.AcceptedIsBounded` | cpuset/cpuset.go:286-385 | whatever is accepted is below 8192 |
| `CpuSet.Print` | cpuset/cpuset.go:228-268 | prints the maximal runs of the set, joined by commas |
| `CpuSet.Gather` | cpuset/cpuset.go:240-252 | the ranges gathered are the maximal runs |
| `CpuSet.RunsAreUnique` | cpuset/cpuset.go:240-252 | a set has one ascending list of maximal runs |
| `CpuSet.ToSlice` | cpuset/cpuset.go:200-210 | ascending, same elements, whatever the order of the map |
| `CpuSet.RoundTrip` | cpuset/cpuset.go:228-385 | what is printed for a set below 8192 reads back as that set |
| `CpuSet.PrintThenParse` | cpuset/cpuset.go:228-385 | parsing what was printed gives the set back |
| `Text.SplitJoin` | cpuset/cpuset.go:301-301 | splitting what was joined |
| `Text.AtoiItoa` | cpuset/cpuset.go:259-259 | reading what was printed |
| `IpTables.IPTables.Insert` | network/iptables.go:172-220 | the rule is on top of its chain unless it was there, and then it is recorded; nothing else moves |
| `IpTables.IPTables.Clear` | network/iptables.go:58-93 | succeeds if and only if every recorded rule can be deleted or is not there; then the original rules are back, and the dedicated chain is gone, kept or left over as `Cleaned` says, depending on the last command, whose failure is ignored; if no command fails it succeeds, and the tables are the original ones but for a dedicated chain that was empty and unused at first |
| `IpTables.IPTables.DeleteRule` | network/iptables.go:66-85 | the recorded rule is not among the injected rules of its chain any more; a missing one is skipped |
| `IpTables.IPTables.Cycles` | network/iptables.go:58-220 | after any operations in any number of cycles, a Clear that succeeds restores every chain but the dedicated one, which is as at first, gone or left empty; if no command fails it succeeds, and the tables are the original ones if and only if the dedicated chain was not there unused at first |
| `IpTables.IPTables.LogConntrack` | network/iptables.go:97-99 | its rule is on top of OUTPUT |
| `IpTables.IPTables.RedirectTo` | network/iptables.go:102-104 | its rule is on top of the dedicated chain, which exists |
| `IpTables.IPTables.Intercept` | network/iptables.go:108-157 | jumps from OUTPUT and, without a cgroup, from PREROUTING; both cgroup filters at once are refused |
| `IpTables.IPTables.MarkCgroupPath` | network/iptables.go:160-162 | its rule is on top of POSTROUTING |
| `IpTables.IPTables.MarkClassId` | network/iptables.go:165-167 | its rule is on top of POSTROUTING |
| `IpTables.NothingLive` | network/iptables.go:65-85 | once every recorded rule is gone, the rules left are the original ones, although records repeat |
| `IpTables.Restored` | network/iptables.go:87-90 | the tables when the deletion of the dedicated chain went through |
| `IpTables.LostChain` | network/iptables.go:87-90 | a concrete run: an empty chain that was there at first is deleted |
| `IpTables.LeftoverChain` | network/iptables.go:87-92 | a concrete run: the deletion of the chain fails, Clear succeeds, and the chain is left |
| `IpTables.CleanedIsBase` | network/iptables.go:87-92 | when what is left is the original state; every other chain always is as at first |
| `IpTables.SmoothSucceeds` | network/iptables.go:65-85 | if no command fails, every recorded rule can be deleted |
| `IpTables.IPTables.DeleteRules` | network/iptables.go:65-85 | all recorded rules are gone if and only if each deletion went through or its rule was not there |
| `CpuStress.EveryRunIsSafe` | injector/cpu_stress.go:49-177 | for any number of workers and any interleaving of Inject, Clean and workers: no send blocks, none on a nil or closed channel, channels are closed only when every worker is gone, nothing panics |
| `CpuStress.StepSound` | injector/cpu_stress.go:49-177 | every step keeps the accounting of tokens and reports |
| `CpuStress.RunSound` | injector/cpu_stress.go:49-177 | and so does every run |
| `CpuStress.CleanTerminates` | injector/cpu_stress.go:86-113 | Clean after Inject of n workers ends after exactly 4n + 6 steps in every interleaving and is never stuck before; then every worker is gone and both channels are nil |
| `CpuStress.SomeoneMoves` | injector/cpu_stress.go:94-102 | no deadlock while Clean runs |
| `CpuStress.CleanTooEarlyPanics` | injector/cpu_stress.go:86-108 | Clean without an injection always closes a nil channel |
| `BackgroundCommand.NeverHangs` | command/command.go:192-306 | in every interleaving: nothing hangs or panics, a ticker comes with an open and empty quit channel, and a SIGCONT follows a SIGTERM only after another KeepAlive |
| `BackgroundCommand.ActSound` | command/command.go:192-306 | every operation keeps the invariant behind that |
| `BackgroundCommand.SingleGoroutine` | command/command.go:190-223 | there is a single goroutine throughout if and only if a goroutine gets a turn between a Stop that stops its ticker and any later KeepAlive |
| `BackgroundCommand.TwoGoroutines` | command/command.go:190-191 | KeepAlive, Stop, KeepAlive: two goroutines |
| `BackgroundCommand.Command.StartTicker` | command/command.go:192-223 | is the operation of the protocol |
| `BackgroundCommand.Command.SendSigcont` | command/command.go:225-266 | is the operation of the protocol; the goroutine exits if and only if the ticker is gone or the process cannot be signalled |
| `BackgroundCommand.Command.Reset` | command/command.go:268-279 | the send always finds room |
| `BackgroundCommand.Command.SendSigterm` | command/command.go:283-306 | is the operation of the protocol; no ticker is left, and it succeeds if and only if the signal is delivered or in a dry run |
| `DnsResponder.NewRecords` | network/dns_responder.go:81-109 | each key leads to the last entry that has it |
| `DnsResponder.FindRecord` | network/dns_responder.go:394-455 | whatever the walk order: nothing exactly when no compatible host is the query name or a parent of it at a dot, else a record of the longest such host; an exact name with the query type wins over a CNAME |
| `DnsResponder.Respond` | network/dns_responder.go:81-455 | from the configured entries: no answer exactly when no entry is for the name or a parent of it, else the last entry for the longest such host and its type; an entry for the very name and type goes first |
| `DnsResponder.FindParent` | network/dns_responder.go:413-454 | the walk keeps a longest parent |
| `DnsResponder.LongestIsUnique` | network/dns_responder.go:442-450 | hosts of the same length that answer are the same |
| `DnsResponder.ExactIsBest` | network/dns_responder.go:398-411 | an exact name is longer than all its parents |
| `DnsResponder.NoBarsWellKeyed` | network/dns_responder.go:106-108 | hosts and types without bars give unambiguous keys |
| `DnsResponder.Rotation.Next` | network/dns_responder.go:458-474 | the IP at the next position |
| `DnsResponder.EveryIpOnce` | network/dns_responder.go:458-474 | over as many calls as there are IPs, each is returned exactly once |
| `MemoryStress.TargetIsExact` | injector/memory_stress.go:76-76 | the target is floor(limit*percent/100) - usage if and only if the product fits in 64 bits |
| `MemoryStress.V1Fits` | injector/memory_stress.go:239-246 | a limit read from cgroup v1 always fits |
| `MemoryStress.V2Overflows` | injector/memory_stress.go:226-226 | 4 EiB at 100 percent wraps to nothing |
| `MemoryStress.PlanAddsUp` | injector/memory_stress.go:115-155 | the chunks are positive, add up to the target and never exceed it on the way |
| `MemoryStress.Injector.Ramp` | injector/memory_stress.go:100-182 | however it ends, the beginning of the plan is recorded; the whole plan when nothing stops it |
| `MemoryStress.Injector.Inject` | injector/memory_stress.go:51-98 | when it succeeds and what is allocated then |
| `MemoryStress.Injector.Clean` | injector/memory_stress.go:184-212 | every recorded chunk is released unless munmap fails, and nothing else is |
| `MemoryStress.Injector.InjectThenClean` | injector/memory_stress.go:51-212 | all the memory taken is given back |

## Left out

- Reconciler.UpdateInjectionStatus: the injection status itself (controllers/disruption_controller.go:513-590) is a finite table and is not computed; only the marking of ready pods and the write are modelled.
- Safety nets, watchers of targets, cloud-managed hosts, notifications, events and metrics of the disruption controller.
- Requeue delays: reconciles happen at any time.
- Errors while building chaos pods: label selectors and container names that do not parse, and pod generation.
- Namespaces: entering and leaving a network namespace, and errors doing so.
- tc below the filters: qdiscs, netem and output-limit operations, BPF filters and the text of tc commands; matching of packets is an arbitrary relation.
- NetworkInjection.Injection.Step: an event is handled in one go.
- NetworkInjection.InterleavingsKeepSeal: covers interleavings inside events, command by command, for watchers that keep to the priorities they were given; that each command of each event does is proved for events that are handled one at a time (`NetworkInjection.Injection.Act`).
- Kubernetes watch channels of a service: closing and reopening them, and resource versions; events arrive in any order and number.
- HostWatching.HostWatcher.Tick: the text of tc errors is not modelled; every failure to delete is only logged, as in the source.
- Launching.OnceEach: child listings that lag behind a whole life of a child are not covered, only listings that miss a child.
- Finalizers of crons are modelled; their deletion delay is measured in whole seconds.
- Labels, annotations and selectors of child disruptions, and their validation.
- Sub-second parts of times: a container change within the second of a rollout's last launch counts as tested, as in the source.
- Unicode: strings are treated as ASCII, in `strings.ToLower`, `ToUpper` and `TrimSpace`.
- CpuSet.Print: sets with negative numbers, which no caller builds, are not modelled.
- DnsResponder.FindRecord and DnsResponder.Respond: nothing is promised when a host, a record type or the query type contains a bar.
- DNS messages, servers, upstream forwarding, random and failure answers, and the parsing of record values.
- `Start` and `Done` of a background command.
- Affinity, priorities, duty cycles and dry runs of CPU stresses; a worker polls its channel at any time.
- MemoryStress.Injector.Clean: the exit and completion channels are not modelled; the handshake is that of a CPU stress with one worker, which is.
- MemoryStress.Injector.Inject: a second injection over a goroutine that holds no memory is not followed up; floating-point seconds of the ramp are exact integers.
- Other injectors (disk, node, container, pod replacement, gRPC, DNS, CPU pressure), the CLI, webhooks and configuration.
