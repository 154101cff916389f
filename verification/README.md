# Druid operator: a verified model

The operator is a level-triggered reconciler. Each pass reads the API server's store, writes to it, and
may return early; a later pass resumes from whatever the store then holds. This project models the
passes of the operator over such a store and proves what holds of every pass and of every run of passes.

- A pass is a method of a class that holds the store, written in the order of the Go code, and is
  proved equal to a function of the state it starts from. The theorems are about these functions.
- Which calls fail is an input of the pass. Unless a statement says that calls succeed, it holds for
  every pattern of failed reads, writes, lists and deletes of the operator's own objects.
- What a pass finds when it reads the configuration maps that `extraCommonConfig` refers to is an input as
  well. The code reads them twice and skips the ones it cannot read, so a failed read changes what is
  desired. Run theorems say which readings they assume, and `ChangedReading` says what happens otherwise.
- Maps and probes that the code shares between nodes and fills in place are threaded through the plan of a
  pass, so a node is built from what the nodes before it left behind.
- The iteration order of a Go map is an input too. Statements hold for every order, and a run may use a
  different one in each pass.
- Between two passes an environment step changes the store: other controllers move statuses, and other
  objects come and go.

## Modules

| module | subject |
|---|---|
| `Naming`, `Cluster`, `Ordering`, `SortStrings`, `Basics` | names, labels, desired objects, rollout order, sorted name lists |
| `Deploy` | one reconciliation pass: create or update, rolling gate, garbage collection |
| `NodeObjects` | the objects a pass applies, field by field |
| `Outcomes` | what a pass does, told from the stored objects and the answers it gets |
| `Sharing`, `Purity` | what sharing cluster-level maps and probes between nodes changes in a plan, and when it changes nothing |
| `Plans` | the steps of a pass, their order and their names |
| `Rollout`, `Exactness`, `Convergence` | theorems about passes and runs |
| `Conflicts` | which names let a rollout settle |
| `ConfigChange`, `ChangedReading` | what a changed configuration does to the next pass |
| `Clock`, `OrphanPvc` | marking and deleting orphan volume claims |
| `VolumeExpansion` | growing the volumes of a StatefulSet |
| `Finalizers` | the finalizer list and ordered deletion |
| `JsonInclusion`, `DynamicConfig`, `ExtraConfig` | configuration comparison, pushing and merging |
| `Ingestion` | the ingestion reconciler |

## Hypotheses

These appear as explicit requirements of the statements that need them.

- `Injective`: the object hash tells different objects apart. `HashesAreBase64`: it is base64 text. The
  hash is otherwise an arbitrary function of name, labels, annotations and content.
- `ValidInput`: the passes of a run desire what one resource `m` says. That is, the referenced configuration
  maps are read alike, and in every map iteration each node gets what the same node of `m` gets on its own
  (`PlansAs`). By `Sharing.OrderFreeExactly` there is such an `m` exactly if all iterations give each node the
  same objects. This is so with at most one node per type, whatever is shared
  (`Sharing.OnePerTypeIsOrderFree`). By `Purity.PureExactly` the resource itself is such an `m` exactly if no
  node changes what a later one gets; only there it is assumed that users do not set the hash annotation
  (`OwnAnnotation`).
- `SteadyInput`: moreover the second reading of the maps, for the applied common map, finds the same.
- `NoConflict`: desired objects under one name carry one hash. `Conflicts.NoConflictExactly` says which
  names users must avoid for it, and `Exactness.SettlesExactly` and `Convergence.QuietMeansNoConflict` show
  that it is necessary.
- `Environment`: between passes nobody else creates or deletes an object that has a desired name or carries
  the cluster's labels, nor changes anything of it but its status. In the orphan protocol claims come and go
  and come again, and nobody else writes the two labels that mark a claim. In volume expansion nobody else
  replaces the StatefulSet, and claims that come are made from its template. In the deletion protocol nobody
  else adds or removes the operator's finalizer. Within a pass, reads see the operator's own writes.
- `Honest`: at the start of a run, a desired object that already carries a hash annotation carries the hash
  of itself, as it was when it was hashed.

## Where the code differs from what one would expect

The model follows the code in each case.

- The node key expression is not anchored, so one lower-case letter or digit anywhere in the key is
  enough (`Cluster.KeyAcceptedExactly`, `Cluster.BadKeyAccepted`).
- Nodes whose type is not one of the seven are silently ignored, and garbage collection removes what they
  once owned (`Ordering.OrderedIsStableSort`, `Exactness.CompletedPassIsExact`).
- A rolling pass waits for a Deployment it has just created, but not for a StatefulSet, whose empty status
  counts as fully deployed (`Outcomes.LaterGenerationPass`).
- A Deployment is judged by its first condition only, so a replica failure reported after another condition
  goes unnoticed (`Rollout.FailureNoticedExactly`, `Rollout.FailureMissed`).
- A cluster-level service with given labels passes the labels of one node on to the services of the nodes
  visited after it, a given annotation map passes on hashes, and a cluster-level probe without a port keeps
  the port of the first node (`Purity.LabelLeaks`, `Purity.PureExactly`). With two nodes of one type
  the order of a Go map then decides what is applied (`Purity.IterationsDiffer`).
- A configuration map that cannot be read once makes a rolling update to another configuration start in
  that pass (`ChangedReading.OtherConfigMovesLowest`).
- Two different services under one name, or a cluster named `druid`, `druid-druid` and so on with a node key
  `common`, never settle (`Conflicts.NoConflictExactly`, `Convergence.QuietMeansNoConflict`).
- A failed write while taking an orphan mark off leaves the old timestamp in place, so a claim can be
  deleted less than 60 seconds after it was seen mounted (`OrphanPvc.FailedUnmarkShortensGrace`).
- A StatefulSet without any volume claim is never expanded, and its passes fail from then on
  (`VolumeExpansion.LargerSizeInOnePass`).
- With PVC deletion disabled while the finalizer is present, deletion never finishes
  (`Finalizers.DisabledNeverFinishes`).
- An ingestion without compaction, or with one already in place, is recorded as failed although its task
  was accepted (`Ingestion.SuccessExactlyIfCompactionPosted`); an empty rules list makes every pass without a
  failure patch the status (`Ingestion.QuietAlongRun`). Each status patch works on the copy that the patch
  before it read, so rules that change together with spec and compaction are recorded and never posted
  (`Ingestion.RulesLostExactly`, `Ingestion.LostRulesStayLost`), and the task id of a resubmission is lost
  when exactly one other patch follows it (`Ingestion.RefreshedExactly`). A changed spec that Druid rejects can still be recorded as the current
  one (`Ingestion.RejectedSpecRecordedExactlyWhen`).

## Model

| member | source | states |
|---|---|---|
| `Naming.CommonNodeClash` | controllers/druid/configuration.go:93-134 | the common configuration map has a node map's name if and only if the node key is `common` and the cluster name is `druid` followed by any number of `-druid` |
| `Naming.ChainEquation` | controllers/druid/configuration.go:93-134 | the word equation behind the clash: its solutions are exactly the chains of `druid` |
| `Naming.NodeNameInjective` | controllers/druid/handler.go:807-809 | within a cluster, two nodes share a workload or configuration map name only if they are the same node |
| `Naming.NodeNameClashAcrossClusters` | controllers/druid/handler.go:807-809 | two clusters of one namespace share a node name exactly when the longer cluster name continues the shorter one with a dash and a head of the other's key |
| `Cluster.DesiredLabelsMatch` | controllers/druid/handler.go:1286-1309 | user pod labels and service labels never displace the keys the garbage collector selects by |
| `Cluster.KeyAcceptedExactly` | controllers/druid/handler.go:1394-1417 | the unanchored key expression accepts a key if and only if the key holds a lower-case letter or digit |
| `Cluster.BadKeyAccepted` | controllers/druid/handler.go:1394-1417 | a key that is accepted and is no resource name |
| `Ordering.GetNodeSpecsByOrder` | controllers/druid/ordering.go:34-53 | the two loops return the keys of `Ordered`, each with its own spec, for any map iteration |
| `Ordering.GroupByType` | controllers/druid/ordering.go:36-44 | after the first loop every known type has its keys, in iteration order |
| `Ordering.Concatenate` | controllers/druid/ordering.go:46-52 | the second loop joins the lists in service order and drops unknown types |
| `Ordering.OrderedIsStableSort` | controllers/druid/ordering.go:24-53 | for every iteration: sorted by the seven-type order, each node of a known type once, nothing else, and equal types in iteration order |
| `Ordering.TypesInOrder` | controllers/druid/ordering.go:24-24 | the seven types and the place of each |
| `SortStrings.SortCorrect` | controllers/druid/handler.go:279-359 | name lists come out in byte order with the same names |
| `SortStrings.SortedUnique` | controllers/druid/handler.go:279-359 | a set of names has one sorted listing, so the report does not depend on the order the API server lists in |
| `Deploy.ApiServer.CreateOrUpdateAsNeeded` | controllers/druid/handler.go:665-717 | the name is registered in every case; the object is created if missing, updated only if the hash annotation differs, otherwise untouched; a failed read or write changes nothing |
| `Deploy.ApiServer.IsObjFullyDeployed` | controllers/druid/handler.go:719-750 | the readiness verdict for StatefulSets and Deployments, including the one-iteration loop over conditions |
| `Deploy.ApiServer.DeployWorkload` | controllers/druid/handler.go:150-214 | one workload step: an update ends the pass, after the first generation an unfinished rollout does too |
| `Deploy.ApiServer.ApplyServices` | controllers/druid/handler.go:132-146 | services are applied in list order and the workload is given the first one's final name |
| `Deploy.ApiServer.ApplyExtras` | controllers/druid/handler.go:220-253 | ingress, disruption budget and autoscaler follow the workload in this order, each only if configured |
| `Deploy.ApiServer.DeployNode` | controllers/druid/handler.go:104-253 | one node's steps in order, stopping where a step ends the pass |
| `Deploy.ApiServer.DeployNodes` | controllers/druid/handler.go:104-265 | the loop over node groups is the run of the whole plan, each node built from the resource as the earlier ones left it; it returns as soon as one group does |
| `Deploy.ApiServer.Prepare` | controllers/druid/handler.go:80-102 | common configuration map as read the second time, then the finalizer list |
| `Deploy.ApiServer.DeleteUnusedResources` | controllers/druid/handler.go:626-655 | one kind: deletes exactly the selected objects whose name was not registered and whose delete succeeds; returns exactly the names it listed and left |
| `Deploy.ApiServer.CollectGarbage` | controllers/druid/handler.go:274-359 | the seven sweeps amount to one simultaneous sweep, and each report is the sorted list of survivors |
| `Deploy.ApiServer.DeployDruidCluster` | controllers/druid/handler.go:59-393 | one whole reconciliation equals `Pass`, with both readings of the referenced maps; it never deletes an object it registered, deletes nothing unless it completes, and then reports the survivors of every kind, sorted |
| `Deploy.RunConcat` | controllers/druid/handler.go:104-265 | steps run one list after another, and an early exit in the first skips the second |
| `NodeObjects.NodeStepsExactly` | controllers/druid/handler.go:104-253 | a node is applied as its configuration map, its services in list order, its workload, and ingress, disruption budget and autoscaler if configured, and nothing else; each object field by field, with its own hash |
| `NodeObjects.WorkloadExactly` | controllers/druid/handler.go:942-987 | the workload: kind, name, node annotations over cluster ones, the node environment instead of the cluster's with both configuration hashes appended, probes with the node's port where none is set, the first service's final name |
| `NodeObjects.ServiceExactly` | controllers/druid/handler.go:811-856 | a service: given labels and selector with the node's labels written over them, its name from the template, the node's port if no ports are given |
| `NodeObjects.LabelsExactly` | controllers/druid/handler.go:1291-1309 | node labels: the operator's four keys, else the node's pod labels, else the cluster's |
| `NodeObjects.PassBegins` | controllers/druid/handler.go:80-102 | a pass begins with the common configuration map as the second reading finds it and the finalizer list; the first reading is what is hashed |
| `Outcomes.RunExactly` | controllers/druid/handler.go:665-717 | steps under distinct names, run one after another with any failures, do what each would do on the objects at the start, up to the first that fails or waits: which are written and how, which names are registered, and how the run ends |
| `Outcomes.PassExactly` | controllers/druid/handler.go:59-393 | the same of a whole pass over distinct names, with its outcome; past the last step it removes exactly the labelled objects it did not name, could list and could delete |
| `Outcomes.ParallelPass` | controllers/druid/handler.go:158-214 | any resource without rolling deploy: a pass whose reads and writes succeed completes whatever the statuses, creates every missing workload and updates every stale one, and only those |
| `Outcomes.WaitsOnlyIfRolling` | controllers/druid/handler.go:158-214 | a pass waits only under rolling deploy |
| `Outcomes.FirstGenerationPass` | controllers/druid/handler.go:158-214 | rolling deploy in the first generation: a pass whose reads and writes succeed waits if and only if some stored workload is stale, which is if and only if it updates one; otherwise it completes with all missing workloads created |
| `Outcomes.LaterGenerationPass` | controllers/druid/handler.go:158-214 | rolling deploy in later generations: a pass whose calls succeed completes if and only if every workload is up to date and fully deployed or a missing StatefulSet, and fails only on a Deployment that reports a failure |
| `Outcomes.InvalidExactly` | controllers/druid/handler.go:61-65 | a resource is refused if and only if some node has no image or no lower-case letter or digit in its key, and then nothing changes |
| `Outcomes.ReportsWhatIsStored` | controllers/druid/handler.go:626-655 | the list reported for a kind holds exactly the objects of that kind with the cluster's labels that are stored after the sweep, and nothing if the kind could not be listed |
| `Sharing.VisitsFrame` | controllers/druid/handler.go:104-265 | whatever nodes share, a pass plans the same names, kinds and ranks in the same places as if they shared nothing |
| `Sharing.PlanOfPlansAs` | controllers/druid/handler.go:104-265 | if every iteration gives each node what it gets in some resource on its own, every pass runs the plan of that resource |
| `Sharing.OrderFreeExactly` | controllers/druid/handler.go:104-265 | there is such a resource if and only if all map iterations give each node the same objects |
| `Sharing.HandedOutPlans` | controllers/druid/handler.go:104-265 | it is then the one that has everything shared written into the nodes as some iteration does |
| `Sharing.OnePerTypeIsOrderFree` | controllers/druid/ordering.go:24-53 | with at most one node of each type all iterations give each node the same objects, whatever is shared |
| `Purity.PureExactly` | controllers/druid/handler.go:104-265 | every pass gives each node the objects it would get alone, if and only if of any two nodes the one that can come first leaves nothing the other sees: no shared annotation map, which would hold a hash; no label in a shared map that the other does not write itself, the user did not give and no node always in between overwrites; no other port in a shared probe |
| `Purity.UnsharedPlansAsItself` | controllers/druid/handler.go:821-835 | under that condition, for every iteration, a resource says itself what its passes desire |
| `Purity.LastWrite` | controllers/druid/handler.go:821-827 | the last node that writes a label into a shared map decides it for the nodes after it |
| `Purity.AnnotationsCollect` | controllers/druid/handler.go:1311-1325 | a given workload annotation map collects the annotations of every node visited and the hash of the last one's workload |
| `Purity.PureMeansKept` | controllers/druid/handler.go:784-835 | and each violation shows: some complete pass then gives the later node another object |
| `Purity.LabelLeaks` | controllers/druid/handler.go:821-827 | with labels given at cluster level, a label only one node has reaches, in some complete pass, the service of a node of the same or a later rank, unless a rank in between always overwrites it |
| `Purity.IterationsDiffer` | controllers/druid/handler.go:821-827 | if the two nodes are of one type and no earlier type writes the label, two iterations of one resource apply different objects |
| `Purity.ProbeSame` | controllers/druid/handler.go:956-987 | a node finds a cluster-level probe as it would alone if all earlier nodes that give the probe a port have its own port |
| `Purity.SameProbeKept` | controllers/druid/handler.go:956-987 | and only then: two nodes that both find it so have one port |
| `Plans.PlanRolls` | controllers/druid/handler.go:104-265 | whatever is shared and for every map iteration, a pass visits one workload per known node, under distinct names, ranks ascending |
| `Plans.PlanIds` | controllers/druid/handler.go:104-265 | the names a full pass registers depend neither on the iteration order nor on what nodes share |
| `Plans.OwnPlanSteps` | controllers/druid/handler.go:104-265 | a resource whose nodes share nothing has one set of desired objects for all iteration orders |
| `Plans.PlanIdsDistinctExactly` | controllers/druid/handler.go:104-265 | a pass over any resource names no object twice if and only if service names are distinct and the configuration map clash is absent |
| `Plans.DesiredWellStamped` | controllers/druid/handler.go:784-805 | every desired object carries the hash of itself and the selector's labels, is of a collected kind and has a wanted name |
| `Rollout.StepFrame` | controllers/druid/handler.go:665-717 | a step touches only its own object, deletes nothing, and leaves its object up to date if the pass goes on |
| `Rollout.FailureNoticedExactly` | controllers/druid/handler.go:737-747 | a rolling pass fails on a Deployment that reports a replica failure if and only if that condition comes first, and goes on exactly if the first condition and the counts allow |
| `Rollout.FailureMissed` | controllers/druid/handler.go:737-747 | a Deployment with a replica failure that counts as fully deployed |
| `Rollout.UpdateWaitsForLowerRanks` | controllers/druid/handler.go:104-218 | rolling deploy, any resource, state, failures and readings: at most one workload update per pass, as its last write, and only with every workload of a smaller rank fully deployed and at the hash this pass gives it |
| `Rollout.PassIsOwn` | controllers/druid/handler.go:59-393 | a pass whose nodes get what the nodes of `m` get on their own is the pass of `m` with nothing shared |
| `Rollout.PassKeepsFrontier` | controllers/druid/handler.go:104-218 | no pass that desires what `m` says brings a workload up to date while one of a smaller rank is not |
| `Rollout.RolloutByRank` | controllers/druid/handler.go:59-393 | over every run of such passes the up-to-date workloads are all lower ranks and part of one rank, whatever fails |
| `Exactness.HonestKept` | controllers/druid/handler.go:784-796 | no step stores an object under a hash that is not its own |
| `Exactness.StepsFrame` | controllers/druid/handler.go:665-717 | the steps of a pass leave every other object as it was and delete nothing |
| `Exactness.CompletedPassIsExact` | controllers/druid/handler.go:270-359 | a completed pass leaves, per collected kind, exactly the desired names and those it could not list or delete among the objects with the cluster's labels, all desired objects at their desired hash, and everything else untouched; desired objects may share a name if they are equal |
| `Exactness.SettlesExactly` | controllers/druid/handler.go:270-359 | a completed pass leaves every desired object at its desired hash if and only if desired objects under one name carry one hash |
| `Exactness.ReportIsDesiredNames` | controllers/druid/handler.go:277-359 | with no failed list or delete, each reported list holds exactly the desired names of its kind, sorted |
| `Conflicts.NoConflictExactly` | controllers/druid/handler.go:104-265 | desired objects conflict if and only if two different services share a name or the common configuration map shares one with a node's |
| `Conflicts.ClashConflicts` | controllers/druid/configuration.go:93-134 | the configuration map clash is a conflict: the two maps differ in their labels |
| `Conflicts.NodesNeedDistinctNames` | controllers/druid/handler.go:811-856 | services of two nodes are never equal, so they agree only under distinct names |
| `Convergence.CalmPass` | controllers/druid/handler.go:158-214 | with no failures and healthy workloads, a pass completes with none behind or waits with fewer behind; with none missing, exactly one fewer, and it completes if and only if none was behind |
| `Convergence.BehindNeverGrows` | controllers/druid/handler.go:59-393 | no pass, with any failures and early exits, makes an up-to-date workload stale |
| `Convergence.GoodPassMovesOne` | controllers/druid/handler.go:158-214 | in a run with any failed and waiting passes, none missing at the start, every pass that meets no failure and finds the workloads ready moves exactly one and waits, or completes if none is behind |
| `Convergence.OneWorkloadPerPass` | controllers/druid/handler.go:158-214 | so if all passes are such, from k stale workloads the first k move one each and pass k+1 completes |
| `Convergence.RolloutConverges` | controllers/druid/handler.go:59-393 | with any failed and waiting passes in between, of k+1 passes that meet no failure and find the workloads ready one completes, missing workloads included; every later pass creates, updates and deletes nothing whatever fails, and completes if nothing fails |
| `Convergence.QuietMeansNoConflict` | controllers/druid/handler.go:665-717 | a pass that completes without a write shows that everything desired is stored and nothing conflicts, so a conflicting resource is never quiet |
| `Convergence.TidyIsSilent` | controllers/druid/handler.go:665-717 | a store holding exactly what is desired is left alone by every pass, whatever fails |
| `Convergence.TidyIsQuiet` | controllers/druid/handler.go:665-717 | and a calm pass over ready workloads completes on it |
| `ConfigChange.JoinInjective` | controllers/druid/handler.go:153-153 | joining two base64 hashes with a dash loses nothing |
| `ConfigChange.ConfigShaTellsApart` | controllers/druid/handler.go:798-805 | the joined hash is equal for two resources if and only if both configuration maps are |
| `ConfigChange.ConfigChangesWorkloadStamp` | controllers/druid/handler.go:942-948 | any change of the common or the node configuration map changes the workload's hash annotation |
| `ConfigChange.ConfigChangeReachesWorkload` | controllers/druid/handler.go:104-218 | a pass over any resource and a workload stored for another configuration: if it gets there it updates the workload or fails and leaves it; a completed pass has updated it; rolling, the update is its last write and no pass completes |
| `ConfigChange.StaleWorkloadReached` | controllers/druid/handler.go:150-214 | the same of the steps of any plan and any stale workload in it |
| `ChangedReading.OtherConfigLeavesExactly` | controllers/druid/configuration.go:100-120 | a pass that reads other common configuration, from any state and with any failures, leaves a workload as `m` wants it if and only if it was so and the pass did not update it |
| `ChangedReading.OtherConfigKeepsFrontierExactly` | controllers/druid/configuration.go:100-120 | from any state in rank order, such a pass keeps the rank order if and only if with every workload it also updates the up-to-date ones of higher ranks |
| `ChangedReading.OtherConfigMovesLowest` | controllers/druid/configuration.go:100-120 | a calm rolling one over up-to-date workloads moves exactly one workload, of the lowest rank, and waits |
| `ChangedReading.CalmKeepsFrontierExactly` | controllers/druid/configuration.go:100-120 | and so keeps the rank order if and only if all nodes have one rank |
| `ExtraConfig.AddExtraCommonConfig` | controllers/druid/configuration.go:100-120 | referenced maps overlay the data in reference order, unreadable ones being skipped |
| `ExtraConfig.LastReferenceWins` | controllers/druid/configuration.go:100-120 | each file comes from the last reference that supplies it, and from the operator's own data exactly if none does |
| `Clock.ParseOfFormat` | controllers/druid/handler.go:493-528 | a timestamp label reads back as the time it was written from, for all 64-bit values |
| `Clock.OnlyNumbersParse` | controllers/druid/handler.go:518-530 | a label is read only if it is digits after at most one sign and fits 64 bits |
| `Clock.DifferenceIsClamped` | controllers/druid/util.go:120-126 | the saturating nanosecond difference is the exact difference in seconds, cut off at the limits, for all epochs in range |
| `Clock.GraceIsExact` | controllers/druid/util.go:120-126 | so the comparison with the grace period is that of exact subtraction |
| `OrphanPvc.HealthGate` | controllers/druid/handler.go:453-463 | the sweep goes on exactly if every pod runs and has all conditions true |
| `OrphanPvc.MountedClaims` | controllers/druid/handler.go:465-477 | behind the gate the list holds exactly the claims some pod references, besides the empty name, although the code skips pending pods |
| `OrphanPvc.UnmarkUndoesMark` | controllers/druid/handler.go:489-512 | unmarking restores the labels from before the mark, and neither touches any other label |
| `OrphanPvc.ClaimStore.CheckPvcLabelsAndDelete` | controllers/druid/handler.go:518-547 | a marked claim is deleted exactly if its timestamp is readable, at least 60 seconds old and the delete succeeds |
| `OrphanPvc.ClaimStore.SetPvcLabels` | controllers/druid/handler.go:549-565 | labels are replaced as a whole or, on failure, not at all |
| `OrphanPvc.ClaimStore.DeleteOrphanPvc` | controllers/druid/handler.go:423-516 | one sweep: every listed claim in order, ended by the first error; no claim a pod references is deleted and none is created |
| `OrphanPvc.SweepEffect` | controllers/druid/handler.go:423-516 | a claim the sweep gets to undergoes its own effect, unaffected by other claims; any other claim is left alone |
| `OrphanPvc.ExaminedExactly` | controllers/druid/handler.go:479-547 | a sweep that gets to a claim takes the two mark labels off if it is mounted, adds them with the time if it is unmounted and unmarked, deletes it if its mark is 60 seconds old, and otherwise or on a failed write leaves it as it is |
| `OrphanPvc.ForeignLabelsKept` | controllers/druid/handler.go:489-512 | no sweep changes the presence or value of any other label |
| `OrphanPvc.ForeignLabelsAlongRun` | controllers/druid/handler.go:423-516 | so along every run a claim keeps all labels that nobody else changes, among them the one it is listed by |
| `OrphanPvc.SweepOutcome` | controllers/druid/handler.go:423-516 | a sweep ends without an error if and only if the lists succeed and either some pod is not running with all conditions true or no listed claim has a failing write or an unreadable mark; in the first case it changes nothing |
| `OrphanPvc.MarksHaveOrigin` | controllers/druid/handler.go:423-516 | over every run, each mark was set by a sweep that found the claim unmounted, at the time the label says |
| `OrphanPvc.LastMarkStands` | controllers/druid/handler.go:479-512 | the mark a claim carries is the one set last, with its time, and no sweep since took it off |
| `OrphanPvc.DeletedOnlyAfterGrace` | controllers/druid/handler.go:423-547 | over every run with any failures, a claim deleted at t is referenced by no pod listed at t and was marked as unmounted at t-60 or before; since then it was unmounted wherever examined, unless a write taking the mark off failed |
| `OrphanPvc.DeletedClaimStayedUnmounted` | controllers/druid/handler.go:423-547 | with no such failed write, it was found unmounted at t-60 or before and at every later sweep that examined it |
| `OrphanPvc.UnmountedExactlyIfUnmarksSucceed` | controllers/druid/handler.go:500-512 | since the last sweep that marked it, a claim still marked was unmounted wherever examined if and only if no unmarking write failed |
| `OrphanPvc.FailedUnmarkShortensGrace` | controllers/druid/handler.go:500-512 | a run in which a failed unmarking write leads to a deletion ten seconds after the claim was seen mounted |
| `OrphanPvc.MarksReadable` | controllers/druid/handler.go:518-530 | no run of the operator leaves a timestamp it cannot read |
| `OrphanPvc.OrphanDeletedAfterGrace` | controllers/druid/handler.go:480-547 | a claim unmounted at every sweep is marked by the first and deleted by the first at least 60 seconds later, and no sooner |
| `VolumeExpansion.Group.PatchListedClaims` | controllers/druid/volume_expansion.go:185-197 | claims of another size are patched in list order up to the first failure |
| `VolumeExpansion.Group.ScalePvcForSts` | controllers/druid/volume_expansion.go:96-202 | the whole expansion step with its early returns, of which only a shrink request, a failed delete and a failed patch are errors |
| `VolumeExpansion.Group.CreateOrUpdateStatefulSet` | controllers/druid/handler.go:187-193 | the following create or update, against a server that refuses to change a claim template in place |
| `VolumeExpansion.Group.DeployStatefulSet` | controllers/druid/handler.go:180-193 | expansion, then create or update |
| `VolumeExpansion.PassDoesExactly` | controllers/druid/handler.go:180-193 | the whole pass from its inputs: how far the expansion gets, which claims are patched in which order, what is left of the set, when the pass succeeds, and its writes |
| `VolumeExpansion.SetDeletedExactly` | controllers/druid/volume_expansion.go:96-178 | the set is deleted if and only if expansion is enabled, no call fails, every StatefulSet has as many ready replicas as replicas, a claim is listed and the wanted size exceeds the template |
| `VolumeExpansion.UnreadyIsLeftAlone` | controllers/druid/volume_expansion.go:110-117 | while any StatefulSet has a replica that is not ready no claim is patched and the set stays |
| `VolumeExpansion.PassNeverShrinks` | controllers/druid/volume_expansion.go:96-202 | a pass asking for no less than before, with any failures: no claim or template shrinks, claims stay at or below the template, no pod is deleted |
| `VolumeExpansion.ClaimsNeverShrink` | controllers/druid/volume_expansion.go:96-202 | over every run with non-decreasing requests, a claim that stays never shrinks |
| `VolumeExpansion.TemplatesNeverShrink` | controllers/druid/volume_expansion.go:96-202 | nor do the templates of successive StatefulSets, even with the set absent in between |
| `VolumeExpansion.ShrinkRequestRefused` | controllers/druid/volume_expansion.go:142-201 | a request below the current template writes nothing and ends the pass with an error |
| `VolumeExpansion.LargerSizeInOnePass` | controllers/druid/volume_expansion.go:142-201 | a calm pass asking for more succeeds if and only if there is a claim, and then ends with the set created again, all claims at the new size and every pod in place |
| `VolumeExpansion.ExpandedIsQuiet` | controllers/druid/volume_expansion.go:142-201 | once expanded, a pass makes no write, whatever fails |
| `VolumeExpansion.RepairedByTwoPasses` | controllers/druid/handler.go:180-193 | from any state an interrupted expansion can leave, two calm passes finish it |
| `Finalizers.ContainsString` | controllers/druid/util.go:67-74 | membership |
| `Finalizers.RemoveString` | controllers/druid/util.go:76-84 | all occurrences go, the rest keeps its order |
| `Finalizers.NormalizedIsFixpoint` | controllers/druid/finalizers.go:43-76 | updating the list twice is updating it once |
| `Finalizers.NormalizedKeepsForeign` | controllers/druid/finalizers.go:43-76 | foreign finalizers keep order and multiplicity; the operator's is there once if enabled and not at all otherwise |
| `Finalizers.UnchangedExactlyWhenLast` | controllers/druid/finalizers.go:43-76 | nothing is patched exactly if the operator's finalizer is absent and disabled, or enabled and stands once, at the end |
| `Finalizers.Resource.UpdateFinalizers` | controllers/druid/finalizers.go:43-76 | a patch is sent if and only if the list changes, and a failed one leaves it as it was |
| `Finalizers.Resource.DeleteStsAndPvc` | controllers/druid/handler.go:395-412 | StatefulSets up to the first failure, claims only after all of them |
| `Finalizers.Resource.ExecuteFinalizers` | controllers/druid/finalizers.go:78-148 | one pass over a resource that is being deleted; success means the finalizer is gone, failure that the list is untouched |
| `Finalizers.SetsBeforeClaims` | controllers/druid/handler.go:395-412 | whatever fails, the deletes of a pass are a prefix of all StatefulSets followed by all claims |
| `Finalizers.PassDoesExactly` | controllers/druid/finalizers.go:78-148 | a pass works if and only if the configuration map was applied, deletion is enabled, the operator's finalizer is there and both lists succeed; it then deletes what it listed up to the first refusal and removes the finalizer if there was none; otherwise it changes nothing |
| `Finalizers.RemovedExactlyWhenClean` | controllers/druid/finalizers.go:95-148 | the finalizer leaves in exactly the passes without a failure, each of which deleted every listed StatefulSet and then every listed claim; the others keep their order |
| `Finalizers.PresentUntilCleanPass` | controllers/druid/finalizers.go:78-148 | over every run in which others may edit their own finalizers, the operator's is present exactly until the first such pass, and no pass changes the others |
| `Finalizers.RetrySucceeds` | controllers/druid/finalizers.go:78-148 | finitely many failures still end in removal, with the foreign finalizers in their original order unless someone else changes them |
| `Finalizers.AbsentStaysQuiet` | controllers/druid/finalizers.go:95-98 | once the operator's finalizer is missing no later pass of a run deletes anything or touches the list |
| `Finalizers.CleanPassIsLast` | controllers/druid/finalizers.go:95-148 | so after the clean pass that removes it the log stays as that pass left it |
| `Finalizers.DisabledNeverFinishes` | controllers/druid/finalizers.go:78-85 | while PVC deletion is disabled the finalizer never leaves |
| `JsonInclusion.SliceIncludesLoop` | pkg/util/util.go:83-97 | the nested loops decide whether every desired item equals some current one |
| `JsonInclusion.IncludesLoop` | pkg/util/util.go:55-80 | the recursive check gives one answer for every key order |
| `JsonInclusion.IncludesIsCovers` | pkg/util/util.go:55-97 | it decides exactly the path-by-path definition: every path of the desired document leads in the current one to a value that meets it |
| `JsonInclusion.IncludesTransitive` | pkg/util/util.go:55-97 | inclusion is transitive over all nested objects and arrays |
| `JsonInclusion.IncludesReflexive` | pkg/util/util.go:55-97 | and reflexive |
| `JsonInclusion.ShortcutNeverMatters` | pkg/util/util.go:62-62 | comparing whole values first never changes the answer |
| `DynamicConfig.Router.UpdateDruidDynamicConfigs` | controllers/druid/dynamic_config.go:35-176 | the fetch, compare and post loop over both node groups with its early returns; only configured groups are posted, with their own configuration |
| `DynamicConfig.PassBringsUpToDate` | controllers/druid/dynamic_config.go:35-176 | an error-free pass leaves every configured group included, and other groups alone |
| `DynamicConfig.UpToDateSendsNothing` | controllers/druid/dynamic_config.go:35-176 | on an up-to-date server no pass sends a POST, even one that meets errors |
| `DynamicConfig.QuietAfterCleanPass` | controllers/druid/dynamic_config.go:35-176 | after an error-free pass the next one posts for neither group |
| `DynamicConfig.PostedExactlyWhenMissing` | controllers/druid/dynamic_config.go:43-163 | a group is posted exactly if it is configured, the calls before succeed, both documents parse and some path of the configuration is not met |
| `DynamicConfig.PassPostsExactly` | controllers/druid/dynamic_config.go:35-176 | the whole pass from documents and answers: middle managers are posted if and only if their configuration is missing, coordinators if moreover the first part did not fail, and the pass succeeds if and only if neither part fails |
| `Ingestion.TaskIdOf` | controllers/ingestion/reconciler.go:653-669 | a task id is never empty, and there is none exactly if the reply is unreadable or names none |
| `Ingestion.CompactionOutcome` | controllers/ingestion/reconciler.go:244-314 | the compaction call succeeds if and only if none is configured, or the data source is named, the GET succeeds, both documents parse, and Druid covers every path or accepts the POST with 200; it reports a change exactly in the last case |
| `Ingestion.Reconciler.UpdateCompactionOf` | controllers/ingestion/reconciler.go:244-314 | compaction is posted only if configured and not included |
| `Ingestion.Reconciler.UpdateRulesOf` | controllers/ingestion/reconciler.go:317-357 | rules are posted if there are any and each is a JSON object; any answer but 200 is an error |
| `Ingestion.Reconciler.MakePatchStatus` | controllers/ingestion/reconciler.go:575-608 | a patch writes spec, rules and task id together, and refreshes the copy in memory with what was stored before |
| `Ingestion.Reconciler.CreateTask` | controllers/ingestion/reconciler.go:372-453 | the create path |
| `Ingestion.Reconciler.ResubmitTask` | controllers/ingestion/reconciler.go:456-511 | a spec is submitted again only if it differs from the recorded one as JSON |
| `Ingestion.Reconciler.CreateOrUpdate` | controllers/ingestion/reconciler.go:359-573 | one whole pass; it keeps the task id empty exactly if the recorded spec is |
| `Ingestion.PassKeepsStatusOk` | controllers/ingestion/reconciler.go:359-608 | whatever fails, the task id is empty exactly if the recorded spec is, and a recorded status is never lost |
| `Ingestion.StatusOkAlongRun` | controllers/ingestion/reconciler.go:359-608 | this holds in every state of every run |
| `Ingestion.NeverResubmitted` | controllers/ingestion/reconciler.go:359-573 | once recorded, passes with a JSON-equal spec never post to the task or supervisor endpoint again |
| `Ingestion.RecordedExactlyWhen` | controllers/ingestion/reconciler.go:372-453 | a status is first recorded in exactly the passes that got a task id, whatever code answered the submission, had no compaction to change or had it accepted, and had any rules accepted |
| `Ingestion.CreatedExactly` | controllers/ingestion/reconciler.go:372-453 | the create path: when a status is written, with the answered id, the spec and the rules, and when as a success |
| `Ingestion.SuccessExactlyIfCompactionPosted` | controllers/ingestion/reconciler.go:390-451 | success is recorded if and only if the submission returned 200 and a compaction is configured that Druid did not cover |
| `Ingestion.QuietAfterCreate` | controllers/ingestion/reconciler.go:359-573 | the pass after a recorded create posts nothing, and patches no status if and only if the rules field is not present and empty |
| `Ingestion.InStepPass` | controllers/ingestion/reconciler.go:359-573 | on a status in step with spec and Druid no pass posts anything, whatever fails, and one patches the status exactly if the rules field is present and empty and no call fails before |
| `Ingestion.QuietAlongRun` | controllers/ingestion/reconciler.go:359-573 | so it stays along every run with that spec: nothing is posted, and every pass without a failure patches the status if and only if the rules field is present and empty |
| `Ingestion.RejectedSpecRecordedExactlyWhen` | controllers/ingestion/reconciler.go:456-571 | a changed spec that Druid rejected is recorded if and only if the pass goes on to have compaction accepted, or has none to change and settles different rules |
| `Ingestion.DataSourceIsAtPath` | controllers/ingestion/reconciler.go:134-210 | the data source is the string at `spec.dataSchema.dataSource` of a readable spec, and there is none otherwise |
| `Ingestion.SubmittedExactly` | controllers/ingestion/reconciler.go:359-511 | a task is submitted if and only if the spec can be read and is not the recorded one, as the first request, once, with that spec; if it is answered with 200 and a task id and the patch succeeds, the new spec is recorded, and the answered id if no other patch follows |
| `Ingestion.SendsExactly` | controllers/ingestion/reconciler.go:359-573 | every pass sends exactly these requests in this order: the task, compaction and rules, each with its condition on spec, stored status, answers and what Druid holds |
| `Ingestion.RefreshedExactly` | controllers/ingestion/reconciler.go:455-608 | the update path: which of its three patches are made, the status it leaves, with the answered task id if and only if the spec patch is made and the later two are both made or both not, and when it succeeds |
| `Ingestion.RulesLostExactly` | controllers/ingestion/reconciler.go:512-571 | changed rules that could be posted are not if and only if a changed spec and a changed compaction were recorded just before, and they are then recorded all the same |
| `Ingestion.LostRulesStayLost` | controllers/ingestion/reconciler.go:512-571 | the status is then in step with the spec, so no later pass posts them |

## Left out

- Crash-looping pods deleted during a rollout (controllers/druid/handler.go:567-624).
- The explicit `persistentVolumeClaim` list of a node (controllers/druid/handler.go:254-265).
- Volume expansion and the orphan sweep inside the deploy pass: each is modelled as a protocol of its own, and `Deploy` has both switched off.
- Several volume claim templates per node, and templates at cluster level: the index pairing of the code assumes there are none.
- The storage-class gate of volume expansion is a boolean input.
- Rollout.RolloutByRank: assumes steady readings of the referenced maps; `ChangedReading` says what one pass that reads otherwise does, not runs whose readings keep changing.
- Owner references, the cluster IP a service keeps on update, ingress annotations, and the pod, default probe, volume, ingress, disruption budget and autoscaler specs, which are opaque text here: their construction is long but easy.
- The text of the common and node configuration files: only how referenced maps are merged in, and that the result is hashed. Referenced maps are named without their namespaces.
- SHA-1, JSON text and resource quantities: an abstract hash, JSON trees and integers.
- Service name templates other than the empty one and those with a single `%s`.
- Validation of additional containers and volume claim templates (controllers/druid/handler.go:1400-1406).
- The cluster status patch, pod names and pod readiness in it (controllers/druid/handler.go:361-390), events and logging.
- Deploy.ApiServer.DeployDruidCluster: models a resource that is not being deleted, with the need for a finalizer patch as an input; the deletion path after the common configuration map is `Finalizers.Resource.ExecuteFinalizers`.
- Deploy.ApiServer.DeployNodes: the maps and probes that the code fills in place are values handed from one node to the next; aliasing itself is not modelled.
- Deploy.ApiServer.DeployWorkload: statuses move only between passes, not during one.
- Convergence.RolloutConverges: is about a fixed resource; a change of the resource starts a new run.
- Finalizers.Resource.ExecuteFinalizers: a delete is an accepted request; when the object disappears is up to the environment.
- Finalizers.Resource.DeleteStsAndPvc: list order is an input, with no claim about garbage collection of pods.
- Ingestion: the ingestion finalizer and task shutdown (controllers/ingestion/reconciler.go:56-132), URL construction and credentials.
- Event predicates, environment parsing, `hasDuplicateString`, authentication secrets, Helm charts, CRDs and generated code.
