# Verification of the Siddhi operator's reconcile core

This project models how the Siddhi operator turns a SiddhiProcess custom resource into deployments,
services, config maps, volume claims and one shared ingress, and proves what that machinery keeps in
every run: referential integrity of mounted volumes, absence of orphans and stray parsers, isolation
between processes, the version protocol, a fresh application cache, the status machine, and reconcile
as a fixed point. Where the operator's code does not keep a property in general, the project gives the
exact condition under which it does, for all inputs; seven of the failures are also shown as runs from
the empty cluster, three of them without any failed call.

## How the model is built

* **State.** `Operator.World` holds the custom resources, the cluster objects (maps from name to
  deployment, service, config map and claim, and the ingress), the caches `SPContainer` (`apps`) and
  `CMContainer` (`listeners`), and the config maps of users. `Cluster.Kube` also records every state the
  objects have been in, so that theorems speak about the states between any two client calls.
  `parsedSpec`, `rollouts` and `stored`, the number of status updates stored, are history variables for
  the theorems.
* **Steps.** `Operator.Step`: creation, update and deletion of a SiddhiProcess, a change of a user
  config map, a change of the available replicas of a deployment, and a reconcile request.
  `Operator.Run` is the world after any sequence of them.
* **Failures.** Client calls are numbered over the whole run. `Cluster.Env` says which numbers fail,
  separately for lookups before deletions, other reads, writes, and the status updates of SyncVersion,
  of UpgradeVersion and of everything else. It also holds the answers of the Siddhi parser, which are
  arbitrary. All theorems quantify over every `Env`; a theorem that relies on some kind of call says so.
* **Two forms.** The specification is functional (`Controller`, `Deployments`, `ParserLifecycle`,
  `Operator`). The operator's own form, objects whose methods update fields, loop and return early, is
  in classes (`KubeClient`, `DeployManager`, `Parser`, `SiddhiController`, `ReconcileSiddhiProcess`,
  `MessagingSystem`, `ClusterStatus`, `RuleObject`), whose methods are proved to compute exactly the
  specification. The theorems are proved of the specification and so hold of the classes.
* **Proof layers.** `Moves` defines the legal writes of the three phases of a pass (parsing, cleaning,
  rolling out); `Conformance` proves that the operator makes no other write whatever fails; `Isolation`
  and `Integrity` prove invariants of the moves; `Removals` says call by call what cleaning drops;
  `StatusFlow`, `LostUpdates` and `StoredVersions` follow the status through a pass, `Passes` and `Runs` put
  the phases together. On these rest the theorems about runs: `Safety`, `IntactRuns`, `Orphans`,
  `StrayParsers`, `Protocol`, `Repetitions`, `Progress`, `SharedIngress`, and `Provisioning` with
  `FixedPoint`. Four modules say field by field what comes out in the end, without naming the functions that
  compute it: `Events` (what an event changes), `Listening` (from the reading of a config map to the request for
  its edit), `Contents` (artifacts after a rollout) and `Reports` (the stored status after a pass). `Locality` proves that a pass depends on the failures of its own calls only, so that theorems
  about a faultless pass ask nothing of the rest of the run. `Instances` holds runs with numbered calls;
  `Scripts` prescribes answers of the parser one pass after the other, and `Hazards` holds runs made that way.

## Assumptions

* One watched namespace. Process names are lower case and free of `/` (stated as a `requires` where it
  is used), so `strings.ToLower` and `path.Join` do nothing to them.
* Steps are atomic and the operator is never restarted. There is one stored copy of each SiddhiProcess:
  the informer cache and the API server are not told apart.
* Only the operator changes the artifacts, apart from the available replicas. Deleting a process removes
  at once every object that it owns. A create event is for a process that does not exist yet.
* User config maps and the operator's own config maps are kept apart.

## What turned out not to hold in general

* **Referential integrity** holds in a run exactly when no step does harm (`RunIntactIff`). A deletion of a
  process does harm exactly when another deployment mounts what it owns (`GarbageIntactIff`); names make
  that possible exactly when one process is named like an application of the other (`ConfigsSharedIff`,
  `SharedRunnerConfig`). A cleaning pass does harm exactly when one of its removals drops a claim or a
  config map that a deployment which stays mounts (`RemovalIntactIff`, `CleaningIntactIff`, whatever lookups
  and writes fail). That happens in three ways. A lookup error in `DeleteDeployment` is taken for "not
  there", so that the volumes of a running deployment go (`BlindRemovalBreaks`; the run `BlindRun`). A
  previous version that was lost makes the removal hit a survivor (`StaleVersionBreaks`; the run `StaleRun`,
  with two lost status updates). While all calls succeed, it happens exactly when the process is *entangled*
  (`EntangledIff`): a deployment at an old version mounts a config map whose name reads like the
  previous-version name of a smaller index (index 11 at version 1 and index 1 at version 11 share `name-111`).
  Ten applications or fewer rule this out (`FewAppsNotEntangled`, `RunIntactFewApps`). Neither entanglement
  nor a shared name needs a failed call: in the run `EntangledRun` a refused claim keeps an application at
  version 1, and in the run `SharedRun` a process goes whose runner configuration is also that of another.
* **Orphans** appear exactly when a cleaning pass that reports success has not seen something that it had to
  remove (`RunNoOrphansIff`, `CleaningAbsentIff`); one failed lookup of a deployment is enough
  (`BlindRemovalOrphans`, `BlindRun`), and without failed lookups there are none (`SeeingRunSweeps`).
* **At most one rollout per version** holds throughout a run exactly when no pass finds a version pending that
  an earlier one has rolled out and lost (`RunAtMostOnceIff`), ascending order exactly when every pass works on
  a version above all that have been lost (`RunAscendingIff`), and both while no version gets lost
  (`RunRolloutsOrdered`). A completed rollout loses its version exactly when it loses the status update of
  SyncVersion, the report of ready deployments after it, and every error report on a refused replica count
  (`LostIff`), and exactly then the next completed pass repeats the rollout (`SecondRolloutIff`; the run
  `RepeatedRun`).
* **Eventual rollout** does not hold, not even when no call fails: an update that `Equals` cannot see, such as
  the echo of a status update, turns all later passes of a cached process into timer passes, and a pending
  version is not rolled out by any number of them (`UnseenUpdateStarvesRollout`; the run `StarvedRun`). While
  its reads and writes succeed, a pass rolls a pending version out exactly when it is not a timer pass and its
  inputs are there: the config maps of the spec, an answer of the Siddhi parser in which each Siddhi
  application has a name, and the messaging system if needed (`PendingRolledOutIff`).
* **A stray parser** survives exactly the passes that parse, leave the parser behind, and end with the process
  cached and nothing pending in store (`RunNoStrayParserIff`; which calls leave it behind is
  `ParserLeftIff`, and which lost status updates settle the process is `SettledIff` with `PassUnheardIff`). It
  takes a failed lookup in `cleanParser`, which goes unnoticed, or a lost upgrade together with another lost
  status update (`RunTidy`, `LostUpgradeLeaksParser`; the run `LossyRun`).
* **`EqualApps`** decides equality up to order exactly for duplicate-free old lists (`EqualAppsExactIff`)
  and is not symmetric. `EqualContainers` does not see added variables (`EqualContainersIff`).
  `EqualsPVCSpec` does not see the volume name, nor whether access modes are nil or empty
  (`EqualClaimsIff`).
* **Readiness**: a stateless deployment that is missing does not keep a process from being ready
  (`MissingStatelessIsReady`; the exact meaning is `TallyMeaning`).
* **Edits of a config map** reach its process as long as no other process mounts the same map (`EditReaches`);
  the last one that reads it takes the listener over (`ReadListeners`).
* Paths are never taken out of the shared ingress, not even when their process is deleted
  (`NextKeepsServing`).

## Model

| member | source | states |
|---|---|---|
| Decimal.DigitsRoundTrip | pkg/controller/siddhiprocess/deploymanager/application.go:179 | the decimal rendering of a number determines the number |
| Decimal.ItoaInjective | pkg/controller/siddhiprocess/parser/parser.go:106 | `strconv.Itoa` is injective on all integers, negative ones included |
| Decimal.DigitsMonotone | pkg/controller/siddhiprocess/deploymanager/application.go:179 | a larger number never has fewer digits |
| Decimal.ConcatCollision | pkg/controller/siddhiprocess/deploymanager/application.go:179 | index and version written side by side collide only when the smaller index carries the larger version |
| Decimal.ConcatLastDigit | pkg/controller/siddhiprocess/deploymanager/application.go:179 | versions that differ modulo ten never give the same concatenation |
| Names.AppNameInjective | pkg/controller/siddhiprocess/parser/parser.go:97 | `process-index` determines both parts, also when process names contain dashes and digits |
| Names.AppIsNotParser | pkg/controller/siddhiprocess/parser/parser.go:138 | no application is named like a parser, of whatever process |
| Names.DeploymentOwnerUnique | pkg/controller/siddhiprocess/parser/parser.go:97-138 | the name of an application or parser deployment determines its process |
| Names.ClaimOwnerUnique | pkg/controller/siddhiprocess/deploymanager/application.go:110 | the name of a claim determines its process |
| Names.AppsConfigIsNotRunnerConfig | pkg/controller/siddhiprocess/deploymanager/application.go:128-179 | a config map of Siddhi files never has the name of a runner configuration |
| Names.RemovedConfigIsNotSurvivors | pkg/controller/siddhiprocess/siddhicontroller/siddhicontroller.go:387 | deleting the config map of a removed index never hits a smaller index that runs no newer version |
| Names.VersionsApart | pkg/controller/siddhiprocess/deploymanager/application.go:179 | versions that differ modulo ten share no config map name, for any two processes and indices |
| Names.ConsecutiveVersionsApart | pkg/controller/siddhiprocess/deploymanager/application.go:179 | consecutive versions of a process share no config map name, whatever the indices |
| Names.SameVersionDistinct | pkg/controller/siddhiprocess/deploymanager/application.go:179 | within one rollout all applications have different config maps |
| Names.DistantVersionsCollide | pkg/controller/siddhiprocess/deploymanager/application.go:179 | index 1 at version 11 and index 11 at version 1 share one config map name |
| Names.AppsConfigOwnerUnique | pkg/controller/siddhiprocess/deploymanager/application.go:179 | a config map of Siddhi files belongs to one process, whatever the process names |
| Names.ConfigsSharedIff | pkg/controller/siddhiprocess/deploymanager/application.go:128-146 | two processes share a config map name exactly when one is named like an application of the other |
| StringSort.SortedUnique | pkg/apis/siddhi/v1alpha2/siddhiprocess_functions.go:61-67 | a multiset of strings has one sorted listing, which is why sorting and comparing decides equality |
| StringSort.SortIsSorting | pkg/apis/siddhi/v1alpha2/siddhiprocess_functions.go:61-62 | sorting yields an ascending permutation |
| StringSort.AtMostIff | pkg/apis/siddhi/v1alpha2/siddhiprocess_functions.go:61-62 | strings are compared byte by byte: one is at most the other when it is a prefix, or smaller at the first place where they differ |
| StringSort.SortInPlace | pkg/apis/siddhi/v1alpha2/siddhiprocess_functions.go:61-62 | the server array itself is left sorted |
| SpecEquality.EqualAppsExactIff | pkg/apis/siddhi/v1alpha2/siddhiprocess_functions.go:95-112 | the nested search agrees with multiset equality for all new lists exactly when the old list has no duplicates |
| SpecEquality.Pigeonhole | pkg/apis/siddhi/v1alpha2/siddhiprocess_functions.go:99-110 | a duplicate-free list included in one of the same length is a permutation of it |
| SpecEquality.EqualAppsNotSymmetric | pkg/apis/siddhi/v1alpha2/siddhiprocess_functions.go:95-112 | there are lists for which the comparison depends on their order as arguments |
| SpecEquality.EqualContainersIff | pkg/apis/siddhi/v1alpha2/siddhiprocess_functions.go:115-132 | equal images, and every old variable among the new ones; additions go unnoticed |
| SpecEquality.EqualMessagingIff | pkg/apis/siddhi/v1alpha2/siddhiprocess_functions.go:55-69 | true exactly when type, cluster id and the multiset of servers agree |
| SpecEquality.EqualClaimsIff | pkg/apis/siddhi/v1alpha2/siddhiprocess_functions.go:29-52 | true exactly when the claims agree in everything but the volume name, with nil and empty access modes taken as the same |
| SpecEquality.EqualsIff | pkg/apis/siddhi/v1alpha2/siddhiprocess_functions.go:29-132 | the whole comparison, every field written out: number and inclusion of apps, runner configuration, image and inclusion of variables, type, cluster id and multiset of servers, the claim up to volume name and nil or empty modes, and the pull secret |
| SpecEquality.ComparedSpec | pkg/apis/siddhi/v1alpha2/siddhiprocess_functions.go:55-92 | the comparison leaves the new spec as it was but for the order of its servers, and sorts them exactly when it gets as far as comparing them |
| SpecEquality.EqualsReflexive | pkg/apis/siddhi/v1alpha2/siddhiprocess_functions.go:72-92 | a spec equals itself |
| SpecEquality.EqualsTransitive | pkg/apis/siddhi/v1alpha2/siddhiprocess_functions.go:72-92 | chains of unseen changes stay unseen |
| SpecEquality.AfterCompareEqual | pkg/apis/siddhi/v1alpha2/siddhiprocess_functions.go:61-62 | sorting servers in place does not change what a spec is equal to |
| SpecEquality.EqualAppsLoop | pkg/apis/siddhi/v1alpha2/siddhiprocess_functions.go:95-112 | the nested loops with early exit compute the comparison of app lists |
| SpecEquality.EqualContainersLoop | pkg/apis/siddhi/v1alpha2/siddhiprocess_functions.go:115-132 | the nested loops compute the comparison of containers |
| SpecEquality.MessagingSystem.Equals | pkg/apis/siddhi/v1alpha2/siddhiprocess_functions.go:55-69 | result, and both server slices sorted in place unless their lengths differ |
| SpecEquality.SpecEquals | pkg/apis/siddhi/v1alpha2/siddhiprocess_functions.go:72-92 | the chain of early exits computes `Equals` and leaves the new spec as stated |
| Ingress.MergeExtends | pkg/controller/siddhiprocess/artifact/artifacts.go:631-671 | every path list is kept as a prefix, rules of other hosts are untouched, no duplicate is added, and exactly the requested paths join the `siddhi` rules |
| Ingress.MergeFreshUnchanged | pkg/controller/siddhiprocess/artifact/artifacts.go:103-163 | the mutate function changes nothing in a freshly constructed ingress |
| Ingress.MergeSettledIff | pkg/controller/siddhiprocess/artifact/artifacts.go:608-674 | merging is the identity exactly when the paths are served and the TLS secret is the same |
| Ingress.MergeIdempotent | pkg/controller/siddhiprocess/artifact/artifacts.go:608-674 | a second merge of the same request changes nothing |
| Ingress.IngressHistory | pkg/controller/siddhiprocess/artifact/artifacts.go:81-164 | after any history of calls from no ingress on, one rule for the host `siddhi` with an entry for each port of each call and no other, service, port number and path pattern spelled out, and the last TLS secret |
| Ingress.PathsOfExact | pkg/controller/siddhiprocess/artifact/artifacts.go:89-102 | a request asks for one entry for each of its ports, in order, and for no other |
| Ingress.PathStringInjective | pkg/controller/siddhiprocess/artifact/artifacts.go:90 | a path string determines service and port |
| Ingress.IngressConflictFree | pkg/controller/siddhiprocess/artifact/artifacts.go:89-102 | no two entries send one path to different backends |
| Ingress.IngressOrderIrrelevant | pkg/controller/siddhiprocess/artifact/artifacts.go:81-164 | the set of paths does not depend on the order of the calls |
| Ingress.PathContains | pkg/controller/siddhiprocess/artifact/artifacts.go:677-684 | the search loop decides membership |
| Ingress.AppendMissing | pkg/controller/siddhiprocess/artifact/artifacts.go:645-649 | appends in place the paths that are not there yet, in order |
| Ingress.MergeInPlace | pkg/controller/siddhiprocess/artifact/artifacts.go:631-654 | the loop over shared rule objects computes the merge |
| SharedIngress.RunFromRequests | pkg/controller/siddhiprocess/siddhicontroller/siddhicontroller.go:233-251 | in every run the ingress comes from a history of requests, so the results about histories apply |
| SharedIngress.RunIngressConflictFree | pkg/controller/siddhiprocess/artifact/artifacts.go:81-164 | in every run the ingress has one rule, and no path leads to two backends |
| SharedIngress.NextKeepsServing | pkg/controller/siddhiprocess/artifact/artifacts.go:641-651 | no event and no pass takes a served path away, not even the deletion of its process |
| ClusterConditions.KeepsTenMostRecent | pkg/apis/nats/v1alpha2/cluster.go:588-593 | after any calls the stored list is the last ten conditions of the unbounded history |
| ClusterConditions.NoRepeatedReady | pkg/apis/nats/v1alpha2/cluster.go:569-586 | no two neighbours are both ready, in the history and in the stored list |
| ClusterConditions.NewestCondition | pkg/apis/nats/v1alpha2/cluster.go:542-593 | after every call the newest condition in store has the kind, the reason text and the time of that call, unless it is a ready one after a ready one, which changes nothing |
| ClusterConditions.ClusterStatus.SetReadyCondition | pkg/apis/nats/v1alpha2/cluster.go:569-586 | the early returns implement the step of the stored list |
| ClusterConditions.ClusterStatus.AppendCondition | pkg/apis/nats/v1alpha2/cluster.go:588-593 | appends and drops the oldest above ten |
| ClusterConditions.ClusterStatus.AppendScalingUpCondition | pkg/apis/nats/v1alpha2/cluster.go:542-549 | records the scaling reason with both sizes |
| ClusterConditions.ClusterStatus.AppendScalingDownCondition | pkg/apis/nats/v1alpha2/cluster.go:551-558 | records the scaling reason with both sizes |
| ClusterConditions.ClusterStatus.AppendUpgradingCondition | pkg/apis/nats/v1alpha2/cluster.go:560-567 | records both versions |
| ClusterConditions.ClusterStatus.Perform | pkg/apis/nats/v1alpha2/cluster.go:542-593 | any run of calls on an empty status leaves what the theorems speak about |
| AppConfigs.FirstUsesExact | pkg/controller/siddhiprocess/parser/parser.go:101-115 | the kept entries are exactly those that listen first on their port, in order |
| AppConfigs.PortServed | pkg/controller/siddhiprocess/parser/parser.go:101-115 | every port somebody listens on is served with that number, as far as it fits `int32`, its name, and the protocol of its first entry |
| AppConfigs.PortsExact | pkg/controller/siddhiprocess/parser/parser.go:101-115 | field by field: one port for each entry that is the first to listen on its port, in order, with name, number and protocol of that entry, and no other |
| AppConfigs.AnswerExact | pkg/controller/siddhiprocess/parser/parser.go:89-129 | an answer is usable exactly when every Siddhi app in it has a name; name, Siddhi app, persistence, replicas, ports and service flag of application i are those of entry i |
| AppConfigs.PortOrigins | pkg/controller/siddhiprocess/parser/parser.go:101-115 | every service port stems from the first use of an entry, later ports from later entries |
| AppConfigs.ServiceEnabledIff | pkg/controller/siddhiprocess/parser/parser.go:94-118 | a service is enabled exactly when some entry listens |
| AppConfigs.PortNamesDistinct | pkg/controller/siddhiprocess/artifact/artifacts.go:361-366 | no container port name repeats once the health port is appended, nor does a valid service port number |
| AppConfigs.ContainsInt | pkg/controller/siddhiprocess/parser/parser.go:290-299 | the loop decides membership |
| AppConfigs.CollectPorts | pkg/controller/siddhiprocess/parser/parser.go:101-118 | the inner loop with its list of ports seen computes the distinct first uses |
| AppConfigs.BuildApplications | pkg/controller/siddhiprocess/parser/parser.go:89-129 | the outer loop names application i `process-i` and fails on the first nameless Siddhi app |
| Cluster.DeleteMissesIff | pkg/controller/siddhiprocess/artifact/artifacts.go:436-513 | a Delete helper reports success and leaves the object exactly when its lookup failed |
| Cluster.ApplyMeans | vendor/sigs.k8s.io/controller-runtime/pkg/controller/controllerutil/controllerutil.go:123-175 | whatever fails: when there is an error, what the reported operation says about the object before and after, and that an error leaves it as it was |
| Cluster.ClaimMeans | pkg/controller/siddhiprocess/artifact/artifacts.go:228-277 | a claim that is there stays; a new one has the spec and owner asked for, and is refused exactly when access modes are given and none of them permits writing |
| Cluster.KubeClient.Apply | vendor/sigs.k8s.io/controller-runtime/pkg/controller/controllerutil/controllerutil.go:123-175 | get, then create, update or nothing, with the reported operation |
| Cluster.KubeClient.ApplyConfig | pkg/controller/siddhiprocess/artifact/artifacts.go:52-78 | a config map is created or its data replaced; the first lookup does not matter |
| Cluster.KubeClient.ApplyClaim | pkg/controller/siddhiprocess/artifact/artifacts.go:228-277 | an existing claim stays as it is; a new one needs an access mode that permits writing |
| Cluster.KubeClient.DeleteIfPresent | pkg/controller/siddhiprocess/artifact/artifacts.go:436-513 | any failed lookup counts as absence |
| Deployments.DeployManager.PrepareClaim | pkg/controller/siddhiprocess/deploymanager/application.go:107-127 | claim before volume, only for stateful applications with a claim spec |
| Deployments.DeployManager.PrepareRunnerConfig | pkg/controller/siddhiprocess/deploymanager/application.go:128-159 | own runner configuration for stateful applications, a shared one for the others |
| Deployments.DeployManager.PrepareApps | pkg/controller/siddhiprocess/deploymanager/application.go:178-195 | the config map of the current version holds one file for each Siddhi app |
| Deployments.DeployManager.Deploy | pkg/controller/siddhiprocess/deploymanager/application.go:90-222 | claim, configurations and deployment in order; the error of the deployment is dropped |
| ParserLifecycle.Parser.Parse | pkg/controller/siddhiprocess/parser/parser.go:81-135 | deploy, ask, build and clean, with the deployment's error overwritten |
| ParserLifecycle.Parser.Deploy | pkg/controller/siddhiprocess/parser/parser.go:137-172 | parser deployment, then its service unless that failed; reports an error of the volumes or of the service |
| ParserLifecycle.Parser.CleanParser | pkg/controller/siddhiprocess/parser/parser.go:244-255 | deployment first, service only if that succeeded |
| SiddhiControllers.SiddhiController.UpdateErrorStatus | pkg/controller/siddhiprocess/siddhicontroller/siddhicontroller.go:58-71 | the working copy keeps the error phase even when it is not stored |
| SiddhiControllers.SiddhiController.UpdatePartialAppStatus | pkg/controller/siddhiprocess/siddhicontroller/siddhicontroller.go:101-121 | the status lists name and Siddhi apps of every application |
| SiddhiControllers.SiddhiController.UpdateReadyDeployments | pkg/controller/siddhiprocess/siddhicontroller/siddhicontroller.go:158-165 | the status reads `available/need` |
| SiddhiControllers.SiddhiController.RollOut | pkg/controller/siddhiprocess/siddhicontroller/siddhicontroller.go:181-252 | one application: deploy, service, ingress, with a report after each success |
| SiddhiControllers.SiddhiController.CreateArtifacts | pkg/controller/siddhiprocess/siddhicontroller/siddhicontroller.go:169-260 | the loop goes on after errors and the version is synchronised regardless |
| Reports.RoundsShow | pkg/controller/siddhiprocess/siddhicontroller/siddhicontroller.go:178-254 | whatever fails: a rollout enters the error phase exactly when the volumes of an application cannot be provided, or its service or ingress entries cannot be written, and changes nothing else in the working copy |
| SiddhiControllers.SiddhiController.SyncVersion | pkg/controller/siddhiprocess/siddhicontroller/siddhicontroller.go:341-344 | previous becomes current in the working copy, and in store unless the update fails |
| SiddhiControllers.SiddhiController.UpgradeVersion | pkg/controller/siddhiprocess/siddhicontroller/siddhicontroller.go:347-350 | current grows by one in the working copy, and in store unless the update fails |
| SiddhiControllers.SiddhiController.CleanArtifacts | pkg/controller/siddhiprocess/siddhicontroller/siddhicontroller.go:354-395 | removes surplus indices in ascending order and stops at the first error |
| SiddhiControllers.SiddhiController.CheckDeployments | pkg/controller/siddhiprocess/siddhicontroller/siddhicontroller.go:263-283 | resets replica counts and goes on after errors |
| SiddhiControllers.SiddhiController.TallyDeployments | pkg/controller/siddhiprocess/siddhicontroller/siddhicontroller.go:287-323 | the loop computes the counters, one Get for each application |
| SiddhiControllers.SiddhiController.CheckAvailableDeployments | pkg/controller/siddhiprocess/siddhicontroller/siddhicontroller.go:286-336 | counters, then the status that follows from them |
| SiddhiControllers.SiddhiController.SetDefaultPendingState | pkg/controller/siddhiprocess/siddhicontroller/siddhicontroller.go:480-488 | pending only at version 0 and only as the first phase |
| SiddhiControllers.SiddhiController.SetNotReadyState | pkg/controller/siddhiprocess/siddhicontroller/siddhicontroller.go:491-499 | not ready exactly when a newer version is pending |
| Availability.TallySplits | pkg/controller/siddhiprocess/siddhicontroller/siddhicontroller.go:294-323 | totals split into stateful and stateless parts, whatever is reported |
| Availability.TallyExact | pkg/controller/siddhiprocess/siddhicontroller/siddhicontroller.go:294-323 | each pair of counters agrees exactly when the deployments of its kind are fully available |
| Availability.TallyMeaning | pkg/controller/siddhiprocess/siddhicontroller/siddhicontroller.go:324-335 | what ends the watch and what counts as ready, in terms of the deployments, both directions |
| Reports.CheckExact | pkg/controller/siddhiprocess/siddhicontroller/siddhicontroller.go:286-336 | whatever fails: the ready text with both totals, the phase, whether the watch ends, and that nothing else changes |
| Reports.WatchEnds | pkg/controller/siddhiprocess/siddhicontroller/siddhicontroller.go:324-335 | the watch of a process ends exactly when every deployment is there with all its replicas |
| Availability.MissingStatelessIsReady | pkg/controller/siddhiprocess/siddhicontroller/siddhicontroller.go:314-330 | a missing stateless deployment leaves its process ready |
| Reconcilers.ReconcileSiddhiProcess.OnCreate | pkg/controller/siddhiprocess/siddhiprocess_controller.go:105-110 | versions start at 0 |
| Reconcilers.ReconcileSiddhiProcess.OnUpdate | pkg/controller/siddhiprocess/siddhiprocess_controller.go:94-104 | a visible change raises the version, any other arms the timer; servers end up sorted |
| Reconcilers.ReconcileSiddhiProcess.OnDelete | pkg/controller/siddhiprocess/siddhiprocess_controller.go:88-93 | the cache entry goes together with all that the process owns |
| Events.UpdateExact | pkg/controller/siddhiprocess/siddhiprocess_controller.go:94-104 | an update raises the version of its process by one exactly when it changes something that the comparison looks at, written out; otherwise it arms the timer; it stores the new spec up to the order of servers and changes nothing else |
| Events.CreateExact | pkg/controller/siddhiprocess/siddhiprocess_controller.go:105-110 | a new process has version 0, no phase and no cached applications, and the others are as before |
| Events.DeleteExact | pkg/controller/siddhiprocess/siddhiprocess_controller.go:88-93 | record, cached applications and exactly the objects owned by the process go; listeners, user config maps and the ingress stay |
| Reconcilers.ReconcileSiddhiProcess.OnConfig | pkg/controller/siddhiprocess/siddhiprocess_controller.go:117-125 | a listened-to config map is marked as changed |
| Reconcilers.ReconcileSiddhiProcess.GetSiddhiApps | pkg/controller/siddhiprocess/siddhiprocess_controller.go:326-348 | registers a listener for every config map it reads and stops at the first that it cannot read |
| Listening.ReadListeners | pkg/controller/siddhiprocess/siddhiprocess_controller.go:326-348 | whatever fails: reading stops at the first unreadable config map and registers exactly the ones named before it, or all of them when there is none; other listeners are untouched |
| Listening.PassListens | pkg/controller/siddhiprocess/siddhiprocess_controller.go:326-348 | after a pass that reads all its config maps, whatever fails later in it, each of them is listened to for its process |
| Listening.RunKeepsListening | pkg/controller/siddhiprocess/siddhiprocess_controller.go:334-338 | in every run, whatever fails, a listener stays with its process as long as no other process mounts the same config map |
| Listening.RequestExact | pkg/controller/siddhiprocess/siddhiprocess_controller.go:185-205 | which process a request reaches, and that it finds nothing exactly when that process cannot be read, and then changes nothing |
| Listening.ChangeMarked | pkg/controller/siddhiprocess/siddhiprocess_controller.go:117-125 | a change of a config map marks its listener, leaves it with its process and touches no other |
| Listening.ChangeReaches | pkg/controller/siddhiprocess/siddhiprocess_controller.go:189-231 | the request for a config map that is listened to reaches its process, and unless that is being watched the pass works on the next version, rolls it out when it completes and settles the listener |
| Listening.EditReaches | pkg/controller/siddhiprocess/siddhiprocess_controller.go:117-231 | from the pass that reads a config map, over any run in which no other process mounts it, to its edit: the request reaches the process and its pass works on the next version |
| Reconcilers.ReconcileSiddhiProcess.PopulateSiddhiApps | pkg/controller/siddhiprocess/siddhiprocess_controller.go:288-323 | parse and clean when a version is pending, the cache otherwise, parse when there is none; the cache changes only on success |
| Reconcilers.ReconcileSiddhiProcess.CreateMessagingSystem | pkg/controller/siddhiprocess/messaging/messaging.go:37-57 | needed exactly for a typed, otherwise empty configuration and a stateful application |
| Reconcilers.ReconcileSiddhiProcess.Reconcile | pkg/controller/siddhiprocess/siddhiprocess_controller.go:185-284 | the method computes the step on which all theorems about runs rest |
| Conformance.RolledOutUpToTraced | pkg/controller/siddhiprocess/siddhicontroller/siddhicontroller.go:178-254 | whatever fails, the rollout loop writes only what the protocol allows: configurations and claims before the deployment that mounts them |
| Conformance.RemovedUpToTraced | pkg/controller/siddhiprocess/siddhicontroller/siddhicontroller.go:361-392 | whatever fails, cleaning makes no write but the dropping of deployments, services, claims and previous-version config maps of surplus indices |
| Conformance.ProcessParsedTraced | pkg/controller/siddhiprocess/parser/parser.go:81-181 | whatever fails, parsing touches the parser and the shared runner configuration only, and numbers its results |
| Conformance.RolloutTraced | pkg/controller/siddhiprocess/siddhiprocess_controller.go:276-277 | CreateArtifacts and CheckDeployments together follow the rollout protocol |
| Passes.AdvancedTraced | pkg/controller/siddhiprocess/siddhiprocess_controller.go:226-283 | every pass is parsing, then cleaning, then rolling out, also when it ends early |
| Removals.RemovalIntactIff | pkg/controller/siddhiprocess/siddhicontroller/siddhicontroller.go:362-391 | whatever lookups and writes fail, removing one application keeps every mounted object present at every client call exactly when no deployment that stays mounts what is dropped |
| Removals.CleaningIntactIff | pkg/controller/siddhiprocess/siddhicontroller/siddhicontroller.go:354-395 | the same for a whole cleaning pass: intact at every client call exactly when each removal that it gets to is harmless |
| Removals.EntangledIff | pkg/controller/siddhiprocess/siddhicontroller/siddhicontroller.go:387 | while calls succeed, cleaning passes of every extent are intact exactly when the process is not entangled |
| Removals.RemovalAbsentIff | pkg/controller/siddhiprocess/siddhicontroller/siddhicontroller.go:362-391 | after a removal that reports success nothing of the application is left exactly when every lookup of an existing deployment, service or claim has succeeded |
| Removals.CleaningAbsentIff | pkg/controller/siddhiprocess/siddhicontroller/siddhicontroller.go:354-395 | the same for all surplus indices of a cleaning pass, and nothing else of the process is touched |
| Removals.BlindRemovalOrphans | pkg/controller/siddhiprocess/artifact/artifacts.go:461-472 | one failed lookup leaves the deployment behind while the removal reports success |
| Integrity.EntangledNeedsLaggard | pkg/controller/siddhiprocess/siddhicontroller/siddhicontroller.go:387 | entanglement needs an index of at least 10 left at a version with fewer digits than the previous one |
| Integrity.FewAppsNotEntangled | pkg/controller/siddhiprocess/siddhicontroller/siddhicontroller.go:387 | at most ten applications are never entangled |
| Removals.EntangledBreaks | pkg/controller/siddhiprocess/siddhicontroller/siddhicontroller.go:387-388 | removing an index whose config map another deployment mounts breaks integrity |
| Removals.StaleVersionBreaks | pkg/controller/siddhiprocess/siddhicontroller/siddhicontroller.go:387-388 | with previous version 1 in store and 11 running, removing index 11 hits index 1 |
| Removals.BlindRemovalBreaks | pkg/controller/siddhiprocess/artifact/artifacts.go:461-472 | one failed lookup of a stateful deployment loses the claim that it mounts |
| Integrity.GarbageIntactIff | pkg/controller/siddhiprocess/artifact/artifacts.go:64-76 | deleting a process keeps everything intact exactly when no other deployment mounts what it owns |
| Integrity.SharedRunnerConfig | pkg/controller/siddhiprocess/deploymanager/application.go:128-146 | processes `a` and `a-0` share the name of a runner configuration |
| IntactRuns.RunIntactIff | pkg/controller/siddhiprocess/siddhiprocess_controller.go:185-323 | in every run, whatever fails, every object mounted by a deployment exists in every state between client calls exactly when no step does harm |
| IntactRuns.NextIntactIff | pkg/controller/siddhiprocess/siddhiprocess_controller.go:185-323 | from an intact cluster a step passes through intact states only exactly when it deletes nothing that others mount and its removals are harmless |
| IntactRuns.RunIntact | pkg/controller/siddhiprocess/siddhiprocess_controller.go:185-323 | steps that do not share names, are not entangled, see what they remove and lose no version do no harm |
| IntactRuns.RunIntactFewApps | pkg/controller/siddhiprocess/siddhiprocess_controller.go:185-323 | at most ten applications each and unrelated process names suffice when no pass loses its version or removes a deployment blindly |
| IntactRuns.SeeingRunHeeds | pkg/controller/siddhiprocess/siddhiprocess_controller.go:185-323 | no pass does either while lookups before deletions succeed and synchronisations, or all other status updates, are stored |
| Orphans.RunNoOrphansIff | pkg/controller/siddhiprocess/siddhiprocess_controller.go:295-322 | in every run, whatever fails, deployments, services and claims of all processes are within their cached applications at every step exactly when every cleaning pass that reports success has seen all that it had to remove |
| Orphans.SeeingRunSweeps | pkg/controller/siddhiprocess/artifact/artifacts.go:436-513 | without a failed lookup before a deletion every run is such a run, however often other calls fail |
| Safety.ReconcileIsolated | pkg/controller/siddhiprocess/siddhiprocess_controller.go:185-284 | every state in a pass differs from the first one only in artifacts named for the process and the ingress |
| Safety.UntouchedMeans | pkg/controller/siddhiprocess/deploymanager/application.go:110-179 | deployments, services, claims and application config maps of other processes stay the same, and all their config maps when names are unrelated |
| Safety.RolloutOverwritesNothing | pkg/controller/siddhiprocess/deploymanager/application.go:178-191 | a rollout never overwrites an application config map of a version that differs modulo ten, in any intermediate state |
| StrayParsers.ParserLeftIff | pkg/controller/siddhiprocess/parser/parser.go:81-135 | whatever fails, parsing leaves deployment or service of the parser behind exactly when it exists once asked for and one of the listed calls fails or no usable answer comes |
| StrayParsers.SettledIff | pkg/controller/siddhiprocess/siddhiprocess_controller.go:226-323 | when a pass ends with the process cached and nothing pending, by which of its status updates are lost |
| StrayParsers.RunNoStrayParserIff | pkg/controller/siddhiprocess/parser/parser.go:130-135 | in every run, whatever fails, a parser remains between steps only while its process is uncached or has a rollout pending exactly when every pass is tidy |
| StrayParsers.RunTidy | pkg/controller/siddhiprocess/parser/parser.go:244-255 | every pass is tidy while lookups before deletions succeed and upgrades, or all other status updates, are stored |
| StrayParsers.RunParserGoneBeforeRollout | pkg/controller/siddhiprocess/siddhiprocess_controller.go:263-276 | in every tidy run no parser is left when a pass is about to roll out, exactly unless it has just parsed without seeing it |
| StrayParsers.LostUpgradeLeaksParser | pkg/controller/siddhiprocess/siddhiprocess_controller.go:228-267 | a lost upgrade, no answer and a lost error report leave a parser behind |
| Protocol.VersionsNeverFall | pkg/controller/siddhiprocess/siddhicontroller/siddhicontroller.go:341-350 | in every step, whatever fails, both versions never fall and previous never overtakes current |
| LostUpdates.SyncUnheardIff | pkg/controller/siddhiprocess/siddhicontroller/siddhicontroller.go:254-283 | whatever fails, nothing is stored from SyncVersion on exactly when SyncVersion, the ready report and every error report on a refused replica count are lost |
| LostUpdates.PassUnheardIff | pkg/controller/siddhiprocess/siddhiprocess_controller.go:226-277 | whatever fails, nothing is stored from UpgradeVersion on exactly when each status update of the pass is lost, listed call by call for reading, cleaning, rolling out and synchronising |
| StoredVersions.AdvancedVersions | pkg/controller/siddhiprocess/siddhicontroller/siddhicontroller.go:341-350 | whatever fails, which versions are in store after a pass, by which of its status updates are lost |
| StoredVersions.VersionStoredIff | pkg/controller/siddhiprocess/siddhicontroller/siddhicontroller.go:254-258 | a completed pass leaves its version as the previous one in store exactly when it is not lost |
| StoredVersions.LostIff | pkg/controller/siddhiprocess/siddhicontroller/siddhicontroller.go:254-283 | after a completed pass on a newer version the previous version in store is another one exactly when SyncVersion, the ready report after it and every error report on a refused replica count are lost |
| StoredVersions.NothingLost | pkg/controller/siddhiprocess/siddhicontroller/siddhicontroller.go:254-258 | stored synchronisations, or all other status updates stored, suffice |
| Protocol.RunRolloutsOrdered | pkg/controller/siddhiprocess/siddhicontroller/siddhicontroller.go:397-408 | in every run that loses no version each version above 0 is rolled out at most once, in ascending order |
| Protocol.SecondRolloutIff | pkg/controller/siddhiprocess/siddhicontroller/siddhicontroller.go:254-258 | a completed pass after a completed rollout repeats it exactly when the version was lost |
| Repetitions.RunAtMostOnceIff | pkg/controller/siddhiprocess/siddhicontroller/siddhicontroller.go:341-344 | in every run, whatever fails, no version of a process is rolled out twice exactly when no pass works on a version that an earlier one has lost |
| Repetitions.RunAscendingIff | pkg/controller/siddhiprocess/siddhicontroller/siddhicontroller.go:341-350 | in every run, whatever fails, rollouts ascend exactly when every pass works on a version above all that earlier ones have lost |
| Protocol.RunCacheFresh | pkg/controller/siddhiprocess/siddhiprocess_controller.go:296-320 | in every run, whatever fails, cached applications of a settled process stem from a spec that `Equals` does not tell from the present one |
| Protocol.PhaseProtocol | pkg/controller/siddhiprocess/siddhicontroller/siddhicontroller.go:324-335 | ready is entered only by a tally that holds; the error phase is left only that way or by a pass that finds a newer version |
| Protocol.UnseenUpdateStarvesRollout | pkg/controller/siddhiprocess/siddhiprocess_controller.go:216-224 | after an update that `Equals` cannot see, no number of passes rolls a pending version out |
| Progress.RolledOutIff | pkg/controller/siddhiprocess/siddhiprocess_controller.go:216-277 | whatever fails, a pass rolls the pending version out exactly when it is not a timer pass and completes |
| Progress.CompletesIff | pkg/controller/siddhiprocess/siddhiprocess_controller.go:226-284 | while its reads and writes succeed, a pass with a pending version completes exactly when its inputs are there |
| Progress.CompletedAnswer | pkg/controller/siddhiprocess/siddhiprocess_controller.go:288-323 | whatever fails: after a completed pass with a version pending, or without cached applications, the cache holds those of the answer given in it, parsed for the present spec; otherwise it is as before |
| Reports.PassReports | pkg/controller/siddhiprocess/siddhiprocess_controller.go:226-284 | the stored status after a pass without failed calls, field by field: versions, ready text, list of applications and phase, which is the error phase exactly when the pass ends early or its rollout refuses an application |
| Reports.OutcomeExact | pkg/controller/siddhiprocess/siddhiprocess_controller.go:234-270 | whatever fails: how a pass ends, in this order: a config map of the spec is unreadable, there are no applications to be had, the messaging clusters called for cannot be created, or it gets as far as its end |
| Reports.WarningExact | pkg/controller/siddhiprocess/siddhiprocess_controller.go:245-248 | whatever fails: a pass sends the warning about missing messaging operators exactly when they are missing and none has been logged before, and is logged from then on |
| Progress.PendingRolledOutIff | pkg/controller/siddhiprocess/siddhiprocess_controller.go:216-284 | while the reads and writes of the pass succeed, a pending version is rolled out exactly when the pass is no timer pass and config maps, parser answer and messaging are available |
| Provisioning.RolledOutIsAttempt | pkg/controller/siddhiprocess/siddhicontroller/siddhicontroller.go:181-252 | without failed calls, one round of the loop does the plain updates of the application, or no more than its claim when it is refused |
| Provisioning.RolloutRefinesAttempts | pkg/controller/siddhiprocess/siddhicontroller/siddhicontroller.go:178-254 | without failed calls the rollout loop refines the plain attempts, one application after the other |
| Provisioning.RefusedLeaves | pkg/controller/siddhiprocess/deploymanager/application.go:107-127 | an application with a refused access mode or an unreadable configuration changes nothing, or adds its claim |
| Provisioning.AttemptAllHandles | pkg/controller/siddhiprocess/siddhicontroller/siddhicontroller.go:178-254 | the attempts leave every application provided or refused, and none undoes another |
| Contents.RolloutDelivers | pkg/controller/siddhiprocess/deploymanager/application.go:90-222 | when no call of a rollout fails, whatever failed before: the config map of the version has exactly the files of the Siddhi apps with their texts, and runner configuration, claim, image, pull secret, variables, container ports, volumes, service ports, ingress entries and replicas of every application that is not refused are spelled out |
| Contents.RoundExact | pkg/controller/siddhiprocess/siddhicontroller/siddhicontroller.go:181-252 | the whole effect of one round without failed calls: what is delivered, the claim with its spec and owner, owners and replicas of what is new or kept, and that nothing else is touched |
| Contents.RefusedIff | pkg/controller/siddhiprocess/deploymanager/application.go:107-159 | an application is refused exactly when it wants a claim and none is there or permitted, or the runner configuration cannot be read |
| Contents.AppsDataExact | pkg/controller/siddhiprocess/deploymanager/application.go:180-183 | each Siddhi app has its file `name.siddhi` with its text, and each file its Siddhi app |
| Contents.ParserExact | pkg/controller/siddhiprocess/parser/parser.go:137-167 | image, pull secret, variables, ports and configuration of the parser deployment, and the port of its service |
| FixedPoint.RolloutExact | pkg/controller/siddhiprocess/siddhiprocess_controller.go:263-277 | after a rollout without failures and refusals, whatever failed before, the deployments of a process are exactly those of its applications |
| FixedPoint.ReconcileFixedPoint | pkg/controller/siddhiprocess/siddhiprocess_controller.go:226-283 | when no call of two successive passes fails, whatever failed before, the second one changes no artifact and no cached application, at version 0 and above, whether applications are refused or not |
| Locality.ReconcileLocal | pkg/controller/siddhiprocess/siddhiprocess_controller.go:185-284 | outcome and effect of a pass depend on the failures and answers of its own calls only |
| Locality.RunLocal | pkg/controller/siddhiprocess/siddhiprocess_controller.go:185-284 | a run depends on the calls that it has made only |
| Instances.BlindRun | pkg/controller/siddhiprocess/artifact/artifacts.go:461-472 | a run of four steps with one failed lookup ends with an orphan that mounts a missing config map |
| Instances.LossyRun | pkg/controller/siddhiprocess/siddhiprocess_controller.go:228-267 | a run of five steps with two lost status updates ends with a stray parser |
| Instances.RepeatedRun | pkg/controller/siddhiprocess/siddhicontroller/siddhicontroller.go:254-258 | a run of five steps with two lost status updates rolls version 1 out twice |
| Instances.StarvedRun | pkg/controller/siddhiprocess/siddhiprocess_controller.go:216-224 | a run without any failed call after which no number of passes rolls version 1 out |
| Hazards.EntangledRun | pkg/controller/siddhiprocess/siddhicontroller/siddhicontroller.go:387 | a run without any failed call in which cleaning drops a config map that another deployment mounts |
| Hazards.StaleRun | pkg/controller/siddhiprocess/siddhicontroller/siddhicontroller.go:341-344 | a run with two lost status updates in which cleaning by a stale version drops a config map that a remaining deployment mounts |
| Hazards.SharedRun | pkg/controller/siddhiprocess/deploymanager/application.go:128-146 | a run without any failed call after which the deployment of one process mounts a config map that went with another process |

## Left out

- RolloutExact: for passes of a spec that can be deployed at all (claim access mode permitted, runner configuration readable); what a refused application leaves is `RefusedLeaves`.
- ReconcileFixedPoint: with the same operator settings in both passes and no config map that has the name of the process.
- RunIntactFewApps: gives a condition that suffices; the exact one is `RunIntactIff`.
- EntangledIff: for a cluster in which every process runs versions up to its previous one; any cluster and any failure is `CleaningIntactIff`.
- ParserLifecycle.Parser.Deploy: does not wait for the parser to come up, and so reports no error of that wait; `Parse` overwrites the error anyway.
- Reconcilers.ReconcileSiddhiProcess.GetSiddhiApps: does not return the list of Siddhi texts, which only reaches the parser.
- Reconcilers.ReconcileSiddhiProcess.CreateMessagingSystem: makes one call that may fail for the several calls of `CreateNATS`.
- The HTTP request to the Siddhi parser, the wait for it, and JSON: the answer is an arbitrary list, or none, for each call.
- `getAppName` and the reading of YAML: a partial map from Siddhi app to name, and the set of texts that cannot be read.
- Mount paths, container command and arguments, probes, security context, rollout strategy, and labels other than the instance.
- The content of user config maps beyond their existence: it reaches the parser, whose answers are arbitrary.
- `CreateNATS`: the contents of the two clusters are not modelled.
- The operator's own config map: its settings are a parameter of each reconcile request, with the precedence of the spec's image and pull secret.
- Event recording, logging, requeue delays, and retries of failed requests: requests come in any order and number.
- Conflicts between concurrent writers of one object: a status update or write that is refused is a call that fails.
- Restart of the operator and leader election: a restart empties the caches and resets the versions.
- The algorithm of `sort.Strings`: an insertion sort with the same promise stands for it.
- `ClusterSpec.Cleanup`, `ClusterSpec.Validate` and the setters of `ClusterStatus` that assign one field.
- A rule of the ingress without an HTTP part, which nothing in the operator creates.
- Width of versions and replica counts: `int64` and `int32` counters are unbounded integers; only the conversion of a port number to `int32` wraps around as in the operator.
