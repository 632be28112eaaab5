# autoconfig, verified in Dafny

autoconfig turns `ModelRoute` objects into the configuration of an openresty gateway, of CART routers and of a
monitor. Many routes share ConfigMaps, one key each; several controllers, charts and people write to them at
once. This project models the parts of autoconfig whose correctness spans many steps, and proves what its code
and comments promise of them.

`dafny verify dfyconfig.toml` checks everything.

| files | what they model |
|---|---|
| `Base`, `Names`, `Text`, `Config` | small vocabulary: references, keys, decimal numbers, peers and targets |
| `Conditions` | status conditions: the list operations, their history, and the in-place slice |
| `Cluster`, `Ownership`, `Reconcile` | the cluster state, who may write a key, and one reconcile as a function of the state and of every outside answer |
| `Reconciler` | the controller as a class whose methods work on its fields, each proved equal to its part of `Reconcile` |
| `Effects`, `Reports`, `Verdicts`, `Runs` | what a reconcile does, told by its effects; what a status says afterwards, call by call and for the whole reconcile; and whole runs of user actions and reconciles |
| `Incumbent`, `Cleanup`, `Confluence` | safety of the incumbent, what may be deleted, order independence |
| `RenamedKeys`, `LostKeys`, `LostKeyExamples` | keys left behind by renames: one reconcile, whole runs, and the ways to lose one |
| `OptimisticConcurrency` | the Get / Update / retry loops, interleaved call by call |
| `Hagate` | the hagate sidecar: N pods, interleaved at single loads, stores and API calls |
| `Discovery`, `Watch` | discovering backends, and which watch events re-run which route |
| `LuaTable`, `RouteConf`, `Sources` | rendering an llm route: strings, peer rows, option order, sources |
| `Cart` | replacing the workers of a document the chart owns |
| `Video` | tiers and download bandwidth of a video route |
| `Reload` | the sweep of orphan sockets, against the listen line the templates render |

How the pieces fit:

- One reconcile is one atomic step in `Runs`, `Incumbent`, `Confluence` and `LostKeys`. For each single ConfigMap
  write `OptimisticConcurrency.Serializable` justifies this: interleaved calls, with reads from a stale cache,
  leave the same data as the successful writes in a row. That the list of routes and the route itself, which come
  from the same cache, are fresh when a reconcile decides who owns a key is a hypothesis of these theorems. The
  outside answers of a reconcile (discovery, rendering, every API failure, which status writes succeed) are one
  value, `Env`; a theorem that needs some of them to succeed says so.
- The owner of a slot is specified by one strict total order, `Ownership.Beats`: whoever holds the slot, then
  the earlier object; `OwnerIsFirstInLine` says the same on the fields of the objects. `RouteKeyOwner` computes it
  with the two scans of the code.
- Where text is produced, the theorem is about what reads it back: `LuaTable` and `RouteConf` read strings, numbers,
  rows and tables as lua does, `Cart` relies on parsing what was printed, `Reload` reads the rendered directive with
  the sidecar's own pattern.

Findings, each with its exact condition:

- A key that is still in its ConfigMap can be lost track of: no route records it, lists it as an orphan or renders
  into it. `LostKeys.LostExactly` says for every action, by anybody and with any faults, exactly when; over runs
  `LostKeys.NeverLost` makes it an if-and-only-if. One reconcile of a live route does it only when `updateStatus`
  (internal/controller/modelroute_controller.go:461-476), which logs a failed write and goes on, fails to list the
  old key and then succeeds in recording the new one (`RenamedKeys.RenamedKeyLostExactly`). Other actions need no
  fault: collecting a deleted route forgets its orphan list, and editing a route away from a key that another route
  left to it, and that it never wrote, forgets that key. With one other fault, a record that was not stored, an edit
  before the next turn forgets the key just written (`LostKeyExamples`).
- The comment where the rename step is called (internal/controller/modelroute_controller.go:286-287) says that the old
  key is removed after the new one is written; the code lists it as orphan and never deletes it. The model follows
  the code.
- A target that takes its port by name depends on the order of the slices when they disagree on that port and some
  address is offered (`Discovery.UnsettledPortDependsOnOrder`). The controller's only named target, its gateway,
  is discovered by VIP or by selector today, so it does not meet this.
- A selector that matches unlabelled pods, the empty one included, is not watched completely
  (`Watch.UnlabelledPodsAreMissed`).
- An option called "peers" replaces the peers of a route (`RouteConf.RenderRoute`).
- A peer with a character that Go writes as a `\u` escape, such as a soft hyphen in a probe path, makes the whole
  row unreadable to lua (`RouteConf.LuaTuple`).
- An option value that `ParseFloat` accepts and lua does not, such as "+5" or "inf", is handed to lua bare.
- A writer that reads a stale version in which its entries are in place returns without writing them
  (`OptimisticConcurrency.SkippedWriteWasThere`).
- A route whose groups use nothing but a configured cart is written without peers while the cart has none
  (`Sources.EmptyRouteExactly`).

Hypotheses, all of them from the Kubernetes API or the CRD: object names contain no '/', ':' or '_' (labels as
in section 2.1 of RFC 1123, and dots); a new object has an empty status; no cart `outputKey` is an openresty key; a group's
`use` is one of the three that the CRD admits; a route name is over [a-z0-9._-]. For hagate: at most one leader flag
is up, a pod gains it only after every other pod that is not terminating completed one error-free label iteration
since losing its own, nobody else puts the active label on, and the label's value is not empty. A patch that
reports failure may have been applied, but not later.

## Model

| member | source | states |
|---|---|---|
| `Names.OrphanRefRoundTrip` | internal/controller/modelroute_controller.go:623-629 | Printing an orphan reference and parsing it back, from any namespace, gives the same ConfigMap and key |
| `Names.SplitNSNameMeans` | internal/controller/modelroute_controller.go:919-924 | A reference with a "/" names the namespace before its first one, any other a name in the default namespace |
| `Names.SplitQualifiedName` | internal/controller/modelroute_controller.go:919-924 | A "ns/name" reference denotes that namespace and name, whatever the default namespace is |
| `Names.QualifiedNameInjective` | internal/controller/modelroute_controller.go:740-745 | Two objects with different names never have the same concatenated "ns/name", the string that breaks ties |
| `Names.OpenrestyKeyInjective` | internal/controller/modelroute_controller.go:748 | Different route names never share an openresty key |
| `Names.MonitorKeyIsNotRouteKey` | internal/controller/modelroute_controller.go:748-759 | A monitor key is never an openresty key |
| `Cluster.KeysAre` | internal/controller/modelroute_controller.go:748-759 | The keys other programs know: a route's file for the gateway, a model's for the monitor, the CART document |
| `Conditions.ConditionHistory` | internal/controller/modelroute_controller.go:884-905 | After any sequence of set and remove calls types are unique; each entry carries the last status, reason and message set, and the time of the first call in the current unbroken run of equal status |
| `Conditions.ConditionSlice.Set` | internal/controller/modelroute_controller.go:894-905 | The in-place update equals the specified list operation |
| `Conditions.ConditionSlice.Remove` | internal/controller/modelroute_controller.go:884-892 | The in-place compaction equals the order-preserving filter |
| `Ownership.EarlierThanIsStrictTotalOrder` | internal/controller/modelroute_controller.go:740-745 | `earlierThan` is irreflexive, transitive and decides between any two distinct routes, the string tie-break included; which way it decides is `OwnerIsFirstInLine` |
| `Ownership.RouteKeyOwner` | internal/controller/modelroute_controller.go:686-727 | In whatever order the routes are listed, the owner reported is the one that comes first among the live claimants that have the slot in their status, or among all of them when none has: by `created`, then by the byte order of "ns/name"; `conflict` is reported exactly to the others |
| `Ownership.OwnerIsFirstInLine` | internal/controller/modelroute_controller.go:686-745 | A route owns a slot if and only if it is a live claimant, has the slot in its status if any claimant has, and every other claimant like it was created later, or then and has the later "ns/name" |
| `Base.StringLessMeans` | internal/controller/modelroute_controller.go:740-745 | `<` on strings: the smaller character at the first difference, or a proper prefix |
| `Ownership.KeyClaimedByOther` | internal/controller/modelroute_controller.go:650-667 | True exactly when some live route other than the asking one renders into the slot |
| `Ownership.ExactlyOneOwner` | internal/controller/modelroute_controller.go:686-727 | A slot with a live claimant has exactly one owner |
| `Ownership.SingleOwnerAgreement` | internal/controller/modelroute_controller.go:686-745 | Exactly one claimant is without conflict, and the name every claimant is told identifies that one |
| `Reconciling.Reconciler.WriteConfigMap` | internal/controller/modelroute_controller.go:764-786 | Read-modify-write of a ConfigMap: only keys whose value differs change, an equal map is not written, a missing ConfigMap is never created, each API failure leaves the data alone |
| `Reconciling.Reconciler.RemoveConfigMapKey` | internal/controller/modelroute_controller.go:837-854 | Removes the key if present; a missing ConfigMap or key is success |
| `Reports.ReadyReported` | internal/controller/modelroute_controller.go:856-882 | After `setStatus` the Ready condition says what was reported, since the moment readiness last changed, and the counts are those of this reconcile; nothing else of any object changed; a failed write changed nothing |
| `Reports.SLOReported` | internal/controller/modelroute_controller.go:397-440 | After `syncSLOCondition` the SLO condition carries the outcome's status, reason and message, since its status last changed, unless a needed write failed; an unchanged one is not written |
| `Reports.SLOCleared` | internal/controller/modelroute_controller.go:444-457 | After `clearSLOCondition` there is no SLO condition, unless there was one and the write failed; nothing else changed |
| `Reconciling.Reconciler.LiveOrphans` | internal/controller/modelroute_controller.go:561-586 | Keeps exactly the entries that parse, still exist and that no other live route renders, in order |
| `Reconciling.Reconciler.SyncOrphanCondition` | internal/controller/modelroute_controller.go:561-605 | New orphan list and condition, early return included |
| `Reconciling.Reconciler.NoteRenamedKey` | internal/controller/modelroute_controller.go:528-549 | The slot a route leaves is listed as orphan unless another live route claims it; a failing list ends the step |
| `Reconciling.Reconciler.ReconcileRenamedKey` | internal/controller/modelroute_controller.go:528-557 | Listing the old slot, recording the new one and pruning the list, each with its own status write that may fail |
| `Reconciling.Reconciler.WriteOutput` | internal/controller/modelroute_controller.go:764-803 | A write to an output ConfigMap with the three ways it can end the reconcile |
| `Reconciling.Reconciler.SyncCart` | internal/controller/modelroute_controller.go:112-165 | The CART stage: skipped when the base is unreadable or empty in exclusive mode, otherwise written; then its peers |
| `Reconciling.Reconciler.PublishRoute` | internal/controller/modelroute_controller.go:242-292 | The owner's stage: SLO condition, rendering, write, bookkeeping of renames |
| `Reconciling.Reconciler.YieldRoute` | internal/controller/modelroute_controller.go:233-241 | The loser's stage: no write, conditions kept current |
| `Reconciling.Reconciler.SyncMonitor` | internal/controller/modelroute_controller.go:295-337 | The monitor stage |
| `Reconciling.Reconciler.CleanupSharedKeys` | internal/controller/modelroute_controller.go:806-834 | The finalizer's cleanup: the recorded key unless another live route claims it, then the monitor key |
| `Reconciling.Reconciler.Reconcile` | internal/controller/modelroute_controller.go:69-350 | The whole reconcile, step by step on the object's fields, ends in exactly the state and result that `ReconcileStep` specifies, and tells the user of a live route what `Verdict` says |
| `Verdicts.ReconcileTells` | internal/controller/modelroute_controller.go:98-350 | After the reconcile of a live route Ready is true with "Synced" when every stage was passed by the owner of the key, false with "RouteKeyConflict" and the owner's name when by another route, "NoBackends", "DiscoverError" or "ConfigMapMissing" exactly on those inputs, each since readiness last changed, with the counts and a retry; every other failure is returned and leaves the condition alone |
| `Verdicts.ReadyExactly` | internal/controller/modelroute_controller.go:338-349 | A reconcile that reports at all leaves the route ready if and only if it owns its key and passed every stage |
| `Verdicts.ReconcileTellsSLO` | internal/controller/modelroute_controller.go:228-264 | After a reconcile that decided who owns the key, the SLO condition carries this outcome if the owner asks for an SLO, and is gone from any other route |
| `Verdicts.MonitorIsWritten` | internal/controller/modelroute_controller.go:295-337 | After a reconcile that passed every stage, the owner's or not, the route's key in the monitor ConfigMap holds the rendered text |
| `Effects.WriteCMEffect` | internal/controller/modelroute_controller.go:764-786 | A write of one key leaves that value there, an empty value creating no key, and every other key of every ConfigMap as it was |
| `Effects.OwnerStageEffect` | internal/controller/modelroute_controller.go:242-292 | What the owner's stage publishes and records, under every combination of API failures |
| `Effects.LoserStageEffect` | internal/controller/modelroute_controller.go:228-241 | The loser's stage touches no ConfigMap and no record |
| `Effects.CartStageGoes` | internal/controller/modelroute_controller.go:112-165 | Exactly when the CART stage lets the reconcile go on |
| `Effects.NoBackendsTouchesNoConfigMap` | internal/controller/modelroute_controller.go:99-115 | With discovery failing or no backend, no ConfigMap, record or orphan list changes, and the reconcile is retried |
| `Effects.LiveStepTurn` | internal/controller/modelroute_controller.go:98-350 | A reconcile of a live route changes nobody else's object and no openresty key but its own, and that one and its record exactly when it owns the slot and reaches the decision |
| `Effects.CleanupEffect` | internal/controller/modelroute_controller.go:806-834 | The cleanup deletes at most the key it answers for, and never one that another live route claims |
| `Runs.StepIsStepped` | internal/controller/modelroute_controller.go:69-350 | Every reconcile, live or deleting, with any outside answers, has the effects stated by `Stepped` |
| `Runs.RunKeepsWellFormed` | internal/controller/modelroute_controller.go:69-350 | Names, specs and recorded keys stay well-formed over every run of user actions and reconciles |
| `Incumbents.IncumbentSafety` | internal/controller/modelroute_controller.go:228-291 | Over any run of creations, edits and deletions of other routes, outside ConfigMap edits and reconciles in any order, a route that holds its slot against later holders stays the owner, and no controller run but its own changes the key |
| `Incumbents.IncumbentKeyStaysPresent` | internal/controller/modelroute_controller.go:806-834 | Along such a run without outside edits of the ConfigMap, the incumbent's key never disappears |
| `Incumbents.OthersReconcile` | internal/controller/modelroute_controller.go:686-737 | A reconcile of any other route, finalizer included, leaves the incumbent in place and its key alone |
| `CleanupSafety.OnlyDeletion` | internal/controller/modelroute_controller.go:806-854 | The only openresty key a reconcile can delete is the one a finalizer recorded, or renders if it never recorded one, and only while no live route claims it |
| `CleanupSafety.LiveKeySurvives` | internal/controller/modelroute_controller.go:650-667 | No controller run makes a live route's present key disappear |
| `CleanupSafety.FinalizerCompletes` | internal/controller/modelroute_controller.go:78-89 | When a finalizer completes, the recorded key is absent or claimed by another live route; the key the spec was merely edited towards is not touched |
| `CleanupSafety.FinalizerTouchesTwoKeys` | internal/controller/modelroute_controller.go:806-834 | Of all keys a finalizer touches only the one it answers for and the route's monitor key, which is gone when it completes |
| `Confluence.OwnersConstant` | internal/controller/modelroute_controller.go:686-727 | With specs and deletions frozen, ownership of every slot is the same before and after any reconcile |
| `Confluence.OthersKeepSlot` | internal/controller/modelroute_controller.go:228-291 | Nobody but the owner of a slot writes or deletes it while the owner is live |
| `Confluence.OwnerSettles` | internal/controller/modelroute_controller.go:228-291 | After any schedule, with answers and faults that differ from turn to turn, the owner's slot holds its conf if and only if some turn wrote it |
| `Confluence.OwnerRecordSettles` | internal/controller/modelroute_controller.go:528-557 | And its status records the slot if and only if some turn recorded it |
| `Confluence.SchedulesAgree` | internal/controller/modelroute_controller.go:686-727 | Any two schedules by which every owner gets its conf written at least once, whatever fails at other turns, end with the same owner and the same content at every claimed key |
| `Confluence.SchedulesAgreeOnRecords` | internal/controller/modelroute_controller.go:528-557 | If every owner is also recorded at least once, they end with the same recorded key and ConfigMap in every status, those of routes being deleted included |
| `RenamedKeys.RenamedKeyLostExactly` | internal/controller/modelroute_controller.go:528-605 | A reconcile of a live route forgets a tracked, present key if and only if it replaces the record of that key while the orphan write fails and the record write succeeds, and nothing else knows the key; the key itself stays present |
| `LostKeys.LostExactly` | internal/controller/modelroute_controller.go:528-605 | Any action, by a user, the API server or the controller and with any faults, leaves a known key behind that nothing knows if and only if it is one of the listed cases |
| `LostKeys.NeverLost` | internal/controller/modelroute_controller.go:528-605 | Over any run of creations, edits, deletions, collections, ConfigMap edits and reconciles, a key is known whenever it is there, at every moment, if and only if no action is one of those cases |
| `LostKeyExamples.ReconcileListsNothing` | internal/controller/modelroute_controller.go:528-549 | A reconcile of a route that never recorded a key, or whose recorded key another route claims, lists no new orphan |
| `LostKeyExamples.DeletionForgetsOnlyOrphans` | internal/controller/modelroute_controller.go:806-834 | Once a finalizer completed, collecting the route forgets nothing but entries of its orphan list |
| `LostKeyExamples.OrphanDiesWithItsRoute` | internal/controller/modelroute_controller.go:78-89 | Such an entry is forgotten without any fault: the key stays and nothing knows it |
| `LostKeyExamples.ClaimEditedAway` | internal/controller/modelroute_controller.go:539-542 | Without any fault: a key left to a claimant that never wrote it is forgotten when the claimant is edited away |
| `LostKeyExamples.UnrecordedKeyEditedAway` | internal/controller/modelroute_controller.go:551-554 | A written key whose record was not stored is forgotten when the spec is edited before the next turn |
| `LostKeyExamples.RenamedThenDeleted` | internal/controller/modelroute_controller.go:528-557 | A concrete cluster for the first of these |
| `LostKeyExamples.ClaimedThenEdited` | internal/controller/modelroute_controller.go:528-557 | A concrete cluster for the second |
| `LostKeyExamples.UnrecordedThenEdited` | internal/controller/modelroute_controller.go:528-557 | A concrete cluster for the third |
| `RenamedKeys.ForgetfulWritesLoseAKey` | internal/controller/modelroute_controller.go:461-476 | A concrete rename in which that pair of faults leaves a key in the ConfigMap that nothing points at |
| `RenamedKeys.OrphanConditionMatchesList` | internal/controller/modelroute_controller.go:561-605 | After pruning, the list holds exactly the entries that can be read, whose key exists and that no other live route renders; the orphan condition is present exactly when it is not empty |
| `RenamedKeys.OrphanMessageLists` | internal/controller/modelroute_controller.go:600-602 | The message of the orphan condition names every entry in order, separated by commas |
| `OptimisticConcurrency.StepIsAtomic` | internal/controller/modelroute_controller.go:764-786 | Every single API call of the interleaved loops, stale reads included, either leaves the stored data alone or is one atomic read-modify-write |
| `OptimisticConcurrency.Serializable` | internal/controller/modelroute_controller.go:764-786 | Under every interleaving, with reads that may return any earlier version or none, the stored data is what the logged writes give when replayed one after the other; which writes are logged is `ReturnsAreLogged` |
| `OptimisticConcurrency.NoLostUpdate` | internal/controller/modelroute_controller.go:764-786 | Every key holds the value of its last logged writer, that is, of the last Update that returned success or the last outside edit |
| `OptimisticConcurrency.UpdateOutcome` | internal/controller/modelroute_controller.go:764-786 | An Update returns success if and only if the version it read is still the current one; then every entry it puts is readable, or its key is gone, under a higher version, and nothing else changed; otherwise nothing is stored, and it is tried again while attempts and the ConfigMap remain |
| `OptimisticConcurrency.GetOutcome` | internal/controller/modelroute_controller.go:764-781 | A Get stores nothing: no ConfigMap ends a write with an error and a removal with success, an operation already in place ends with success, any other goes on to its Update |
| `OptimisticConcurrency.ReturnsAreLogged` | internal/controller/modelroute_controller.go:764-786 | Over every run, the successful Updates and the writes in the log correspond one to one, in order |
| `OptimisticConcurrency.SuccessIsEarned` | internal/controller/modelroute_controller.go:764-786 | A loop that returns success stored its operation at some step of it, or saw it in place, or removed from no ConfigMap |
| `OptimisticConcurrency.RunsHaveNoPhantoms` | internal/controller/modelroute_controller.go:764-786 | No write ever applies to a ConfigMap that does not exist at that moment |
| `OptimisticConcurrency.WriterStaysInItsKeys` | internal/controller/modelroute_controller.go:837-854 | A writer changes no key outside its own set and creates or deletes no ConfigMap |
| `OptimisticConcurrency.SkippedWriteWasThere` | internal/controller/modelroute_controller.go:769-781 | A writer that succeeds without writing saw its entries in place |
| `OptimisticConcurrency.RetryLoopEnds` | internal/controller/modelroute_controller.go:764-786 | A loop makes at most ten calls, and until it has returned it always has one to make |
| `Hagate.PatchChangesOneLabel` | internal/hagate/hagate.go:152-164 | The merge patch (section 2 of RFC 7396) sets or removes that one label and changes nothing else of the pod, whether or not it had labels |
| `Hagate.GracefulDrain` | internal/hagate/hagate.go:69-112 | Under every interleaving of the signal with the loop at most one removal is issued after the signal is stored, and when the loop has returned with its last calls successful the pod carries the active label, unless somebody else changed it since |
| `Hagate.NoMoreRemovals` | internal/hagate/hagate.go:84-112 | A terminating pod between iterations never issues a removal again: no iteration that starts after the signal does |
| `Hagate.LabelFollowsLeadership` | internal/hagate/hagate.go:84-112 | A loop left alone is in its wait after at most five actions, and there the pod is labelled active if and only if it is terminating, or leads and its application answers; it patched once if that was not so before, and otherwise not at all |
| `Hagate.StartedPodServes` | internal/hagate/hagate.go:103-137 | From its start, a pod that gains the lease and whose application answers ends up labelled |
| `Hagate.SignalledPodDrains` | internal/hagate/hagate.go:72-112 | From its wait, a signalled pod whose API calls succeed leaves the loop with the label on |
| `Hagate.LastIterationKeepsLabel` | internal/hagate/hagate.go:84-108 | The last iteration patches the label on exactly when it is missing, and ends on any failed call |
| `Hagate.SingleActive` | internal/hagate/hagate.go:84-137 | Over every run of N pods under the lease assumption, no two pods that are not terminating are both labelled active |
| `Discovery.UniquePort` | internal/discovery/discovery.go:296-306 | The only port, if there is exactly one; otherwise which error |
| `Discovery.DerivePortFromSlices` | internal/discovery/discovery.go:221-231 | The unique positive port declared by the slices |
| `Discovery.DerivePortFromPods` | internal/discovery/discovery.go:270-282 | The unique positive container port |
| `Discovery.PortByName` | internal/discovery/discovery.go:285-294 | The first positive port of that name, in listing order |
| `Discovery.SortIsStrict` | internal/discovery/discovery.go:308-315 | Sorting peers with distinct addresses makes them strictly increasing by IP |
| `Discovery.DiscoverEndpointSlices` | internal/discovery/discovery.go:176-218 | The loops compute, for the resolved port, the sorted first offers of every address, or the port's error |
| `Discovery.DiscoverPods` | internal/discovery/discovery.go:234-267 | The same for the pods of a selector |
| `Discovery.Discover` | internal/discovery/discovery.go:167-172 | A Service is looked up in slices, anything else among pods |
| `Discovery.DiscoverRefinesSet` | internal/discovery/discovery.go:176-282 | On the listed fields alone: the addresses found are exactly the non-empty ones of endpoints whose readiness is unset or true, or of running, undeleted pods whose first "Ready" condition is "True" (of all of them when not-ready ones are included), each on a node it is listed with; the port is the given one, one listed under the given name, or the only positive one listed, and otherwise the error says which |
| `Discovery.FirstNodeWins` | internal/discovery/discovery.go:195-216 | An address listed on several nodes gets the node it is listed with first |
| `Discovery.IsReadyMeans` | internal/discovery/discovery.go:317-324 | A pod is ready if and only if its first condition of type "Ready" is "True" |
| `Discovery.SliceOrderIndependent` | internal/discovery/discovery.go:176-218 | Any order of slices, and of ports, endpoints and addresses inside them, gives the identical result when equal addresses are on equal nodes and the port is settled |
| `Discovery.UnsettledPortDependsOnOrder` | internal/discovery/discovery.go:285-294 | When it is not settled, some permutation gives a different result |
| `Discovery.OrderMattersExactly` | internal/discovery/discovery.go:176-218 | With equal addresses on equal nodes, every permutation gives the identical result if and only if the port is settled |
| `Discovery.PermutationsShuffle` | internal/discovery/discovery.go:176-218 | Permutations of slices, or of the ports and endpoints inside them, are such reorderings |
| `Discovery.PodOrderIndependent` | internal/discovery/discovery.go:234-267 | Any permutation of the pods gives the identical result when equal addresses are on equal nodes |
| `Discovery.AnnotateGPUTypes` | internal/discovery/discovery.go:35-53 | Every peer gets the type its node has when its first peer is handled; peers on one node agree even if the node changes meanwhile; nothing else changes |
| `Watch.RoutesForEndpointSlice` | internal/controller/modelroute_controller.go:1026-1044 | Exactly the routes that reference the slice's Service are enqueued |
| `Watch.RoutesForPod` | internal/controller/modelroute_controller.go:980-998 | Exactly the routes one of whose selectors matches the labelled pod are enqueued |
| `Watch.SliceEnqueuesExactly` | internal/controller/modelroute_controller.go:1026-1065 | A slice enqueues a route if and only if some target of the route lists the slice |
| `Watch.PodEnqueuesExactly` | internal/controller/modelroute_controller.go:980-1023 | A labelled pod enqueues a route if and only if some target of it that has a selector selects the pod |
| `Watch.DiscoveryIsDeterministic` | internal/discovery/discovery.go:167-282 | Discovery is a function of what it lists |
| `Watch.SliceWatchComplete` | internal/controller/modelroute_controller.go:1026-1065 | A change of EndpointSlices that enqueues a route from neither version leaves every `Discover` made for it with the same result |
| `Watch.PodWatchComplete` | internal/controller/modelroute_controller.go:980-1023 | The same for pods, when references name a Service and the selector matches no unlabelled pod |
| `Watch.UnlabelledPodsAreMissed` | internal/controller/modelroute_controller.go:980-984 | Whenever the selector does match unlabelled pods, such a pod can appear without enqueuing the route and change what is discovered |
| `LuaTable.LuaValMeans` | internal/sink/openresty.go:16-27 | A value stands in the table bare if and only if it counts as a number or is "true", "false" or "nil"; any other value arrives as a string equal to it with line breaks as spaces |
| `LuaTable.DecimalValueMeans` | internal/sink/openresty.go:16-27 | A decimal number arrives as that number |
| `LuaTable.ReadEscaped` | internal/sink/openresty.go:16-27 | A quoted value reads back and ends at its own closing quote, whatever follows |
| `LuaTable.ReadQuoted` | internal/config/config.go:25 | What `%q` prints reads back as its string, whatever follows, if and only if every character is ASCII or printable |
| `LuaTable.ReadItemsBack` | internal/config/config.go:24-39 | A printed list of positional and named items reads back as those items, if and only if every quoted text does |
| `RouteConf.LuaTuple` | internal/config/config.go:24-39 | The row reads back as the peer (address, port, name, priority, concurrency, probe and GPU, also with a concurrency but no priority) if and only if all its texts survive `%q` |
| `RouteConf.RenderPeers` | internal/sink/route.tmpl:23-27 | One row per peer, in order, each reading back as its peer or not at all |
| `RouteConf.RenderTable` | internal/sink/route.tmpl:22-43 | With the last assignment winning, a key takes its Raw value, else its escaped value, else the peers |
| `RouteConf.RenderRoute` | internal/sink/openresty.go:247-275 | Refuses exactly a malformed body size; every option arrives with its intended value; the peers arrive if and only if no option is called "peers" and all their texts survive |
| `RouteConf.NginxSizeIsBounded` | internal/sink/openresty.go:238-245 | An accepted size is a number from 1 to 9999999 with at most one unit letter |
| `RouteConf.NginxSizeExactly` | internal/sink/openresty.go:238-245 | A size is accepted if and only if it is one to seven digits, the first not 0, and at most one unit letter |
| `Sources.BuildSources` | internal/controller/modelroute_controller.go:186-214 | The sources of the groups: skipped groups, per-backend concurrency times backends, default probe path |
| `Sources.NameUnnamed` | internal/sink/sink.go:24-38 | A nameless peer is called after its node, or after target and place |
| `Sources.ResolveSources` | internal/sink/openresty.go:367-387 | All the sources' peers in order, with each non-zero override applied; the single target without sources |
| `Sources.BuildRoutePeers` | internal/controller/modelroute_controller.go:186-278 | The two loops and the resolution together: the peers handed to the renderer |
| `Sources.GroupsReachPeers` | internal/controller/modelroute_controller.go:170-214 | A route with a group in use has exactly the peers its groups find, each with the non-zero priority, concurrency and probe path of its group, else its own; a cart without a probe path is probed at "/health", and one that takes its concurrency from the backend has that of the last backend group that gives one times the number of backends |
| `Sources.UngroupedRoute` | internal/sink/openresty.go:367-373 | A route without a group in use has its backends as peers, unchanged but for their names |
| `Sources.EmptyRouteExactly` | internal/controller/modelroute_controller.go:186-214 | With backends, a route is written without peers if and only if a configured cart that has no peer is all its groups use |
| `Sources.PeersAreNamed` | internal/sink/sink.go:24-38 | Every resolved peer has a name |
| `Cart.WorkerList` | internal/sink/cart.go:42-55 | One worker per backend, in order, with its own or the fallback load |
| `Cart.UrlsIdentifyBackends` | internal/sink/cart.go:42-55 | Workers with equal urls are the same address and port |
| `Cart.RenderCart` | internal/sink/cart.go:22-39 | The text is the base document with exactly these workers, or the parse error |
| `Cart.RenderingReadsBack` | internal/sink/cart.go:22-39 | What was rendered reads back as the base document with the new workers and every other key unchanged |
| `Cart.RenderingOverRendering` | internal/sink/cart.go:22-39 | Rendering q over a rendering of p is rendering q over the base |
| `Cart.BaseIsPreserved` | internal/controller/modelroute_controller.go:117-150 | Over any mix of rewrites by others and reconciles, the key is the last base with the workers of the last successful reconcile since; an unusable base is never touched |
| `Cart.WorkersAfterRun` | internal/controller/modelroute_controller.go:110-150 | Then the workers are exactly that reconcile's non-empty backends, and every other key is as last written |
| `Cart.CartStepIsEvent` | internal/controller/modelroute_controller.go:133-150 | The CART step of the reconcile is such an event |
| `Reload.DirectiveIsCaptured` | internal/reload/reload.go:19-20 | In any text, the greedy capture on a route's rendered listen directive is that route's socket path |
| `Reload.SocketDir.CleanupOrphanSockets` | internal/reload/reload.go:61-85 | Unreadable configuration: nothing is removed; otherwise a socket stays if and only if it was not listed, is listened on, has its base name mentioned in some configuration file, or cannot be removed |
| `Reload.RouteKeepsItsSocket` | internal/sink/route.tmpl:16 | A route whose configuration is present never loses its socket, whatever else its file and the others contain |
| `Reload.WatchDirs` | internal/reload/reload.go:90-106 | Every directory once, the first path's directory first |
| `Reload.BaseNameIs` | internal/reload/reload.go:61-85 | `filepath.Base`: the last element, whether or not a slash follows it |
| `Video.CheckVideoTiers` | internal/sink/openresty.go:139-154 | Accepts exactly at most two priorities |
| `Video.ToVideoPeers` | internal/sink/openresty.go:199-214 | Order and length are kept, and exactly the peers below the highest priority are backups |
| `Video.FlatteningIsFaithful` | internal/sink/openresty.go:139-214 | "Primary before backup" says exactly which peers come before which if and only if the tiers were accepted; some peer is primary |
| `Text.TrimSpaceIs` | internal/sink/openresty.go:112 | What is left of a text without the white space at both ends, and all of it |
| `Text.IsSpaceIs` | internal/sink/openresty.go:112 | White space is the Unicode property, character by character |
| `Video.BitUnits` | internal/sink/openresty.go:118-124 | The three units in any case, in steps of a thousand |
| `Video.BitRateMeans` | internal/sink/openresty.go:111-134 | A number and a unit are that number times 1000, 1000000 or 1000000000 bits per second; what is not a positive number is refused |
| `Video.OtherRateMeans` | internal/sink/openresty.go:111-134 | A text without such a unit is handed on as it is, trimmed |
| `Video.ParseIntMeans` | internal/sink/openresty.go:300-307 | Exactly an optional sign and digits that fit an int64 are read, and as that number |
| `Video.ParseDecimal` | internal/sink/openresty.go:133 | A formatted int64 parses back to itself |
| `Video.LimitDownloads` | internal/sink/openresty.go:280-317 | Succeeds exactly when nothing is limited or the total divides; both limits are set exactly when a rate is; each share is at least 1, their sum at most the larger of total and limit, and total < (share + 1) x limit |
| `Video.BitRateTotal` | internal/sink/openresty.go:111-134 | For a bit rate the total is the bits over eight, rounded down |

## Left out

- Kubernetes client, informer cache, RBAC, leader election internals, fsnotify, signals to nginx, `/proc` scanning, dialling: outside answers or the abstract lease
- A chart write between the CART base read and the ConfigMap write: one reconcile is atomic in `Cart`
- A spec edit between a reconcile's first read and its last write: a reconcile sees one version of its own spec
- Message wording, log lines, `observedGeneration`, `lastSyncTime`; one reconcile uses one point in time for all its conditions
- The YAML, text/template and regexp engines: documents with parse-after-print identity, the sequence of assignments, and a direct definition of the one pattern
- Which texts `strconv.ParseFloat` accepts, and floating-point rounding: a predicate in `luaVal`, exact reals in `parseRate`; letters outside ASCII are not lowered there
- `sort.Slice`: a sort function with the code's comparison; on distinct addresses the order has one solution
- Which characters Go takes for printable, and texts that are not valid UTF-8: a predicate in `%q`
- That option keys are lua names, and what lua makes of a raw option's text: the text is carried as it is
- RouteConf.RenderRoute: produces the sequence of the table's assignments and the body size of an llm route; the other lines of the template are fixed text around them
- LuaTable.LuaValMeans: does not say what lua makes of a bare word, because which texts `ParseFloat` accepts is a predicate here
- The video template, apart from the listen line, the tiers and the download limits; `nginxVarName`, `authPublicPaths`, `withDefaults` and the other plain defaults: one-line mappings
- Monitor text, SLO translation tables, GPU label shortening, `ServiceClusterIP` ports, deepcopy code, CRD YAML, Helm: plain mappings
- `reload.Run`'s debounce timer: timing only
- hagate's label goroutine at process exit: `Run` does not wait for it, so the drain theorem is about a loop that has returned
- Collisions of monitor keys between namespaces: they do happen in the code, and no theorem speaks of their content
- Deletion of a ModelRoute object itself: the API server's garbage collection is a step of its own, `Collect`
- Confluence.SchedulesAgree: specs, deletions and what each route would render stay the same along both schedules
- Watch.SliceWatchComplete: speaks of one stretch of the listing at a time; several changes follow one another
- Video.BitRateTotal: assumes that the rate fits an int64, beyond which Go's conversion is not defined
