# kruise-tools core, modelled in Dafny

This project models the core of kruise-tools, the OpenKruise command-line tools. Each Go source file of the core becomes one Dafny module, and the model's properties are proved about those modules. The core covers these parts:

- **Migration controllers.** The bounded-surge migration moves pods from a Deployment to a CloneSet.
  - One reconcile step either scales the CloneSet out or scales the Deployment in, never both.
  - Every step keeps `0 <= SrcMigrated <= DstMigrated <= Replicas` and `DstMigrated - SrcMigrated <= MaxSurge`.
  - The counters never decrease.
  - Informer callbacks only wake the task that owns the changed object.
  - The one-shot StatefulSet and DaemonSet migrations create the Advanced workload, orphan-delete the source and record a finished task.
- **Creation controls.** They create a CloneSet, Advanced StatefulSet or Advanced DaemonSet beside an existing workload, using the same field mappings.
- **The `migrate` command.** It checks the flags, turns them into migration options and polls until the task reaches a terminal state.
- **The `rollout` helpers.**
  - Rollback to an earlier step with no traffic.
  - Approval of a paused step.
  - Sorting CloneSet pods by revision and readiness.
  - Printing the revision history.
  - The de-duplicating `rollout undo`.
- **The `set image`, `set env`, `scaledown`, `create broadcastjob` and `create crr` commands.** The model covers their option checks and the objects they build or edit.
- **The ResourceDistribution generator.** This kustomize function writes a ResourceDistribution document.
  - It writes the resource's data: text as is, anything else in base64 wrapped at 70 columns.
  - It writes the resource's kind, name, type and immutability.
  - It writes the targets: namespace lists, all namespaces, and a label selector whose match expressions are checked and sorted in place.

Code that changes state in the source is a Dafny `class` whose methods are proved against pure specification functions:

- the controllers' task stores and clusters;
- the rollout objects;
- the options of the commands;
- the CloneSet edited by `scaledown`;
- the YAML node the generator edits.

Code that only computes is written as functions and lemmas. The Kubernetes API server, the informer caches and kubectl's builders become an abstract object store, or parameters that stand for the outcome of the call.

## Model

| member | source | states |
|---|---|---|
| Api.ParseGroupVersion | pkg/cmd/rollout/rollout_undo.go:292-292 | parsing an API version fails exactly when it holds more than one '/' and is not "/" itself |
| Api.FromAPIVersionAndKind | pkg/api/api.go:76-78 | the kind is kept; a well-formed API version yields its group and version, a malformed one yields an empty group and version |
| Api.NewDeploymentRef | pkg/api/api.go:84-91 | the reference names the apps/v1 Deployment kind and the given namespace and name |
| Api.NewCloneSetRef | pkg/api/api.go:93-100 | the reference names the apps.kruise.io/v1alpha1 CloneSet kind and the given namespace and name |
| Api.GroupVersionRoundTrip | pkg/api/api.go:84-100 | printing a group/version and parsing it back gives the same group/version whenever neither part holds '/' |
| Api.DeploymentAndCloneSetRefsDiffer | pkg/api/api.go:84-100 | a Deployment reference never equals a CloneSet reference, whatever the names |
| Utils.Int32Min | pkg/migration/cloneset/cloneset_migration.go:265-265 | the result is one of the arguments and no greater than any of them |
| Utils.IsKruiseRolloutsAnnotation | pkg/utils/misc.go:12-18 | an absent key is not a Kruise Rollouts annotation; a present key is one exactly when the Kruise Rollouts group occurs in it |
| Utils.InCanaryProgress | pkg/utils/misc.go:20-33 | a Deployment is in canary progress exactly when it is paused, carries the in-progressing annotation and lacks the strategy annotation |
| Utils.CanaryAnnotationsAreKruise | pkg/utils/misc.go:12-33 | both annotations the canary test consults are Kruise Rollouts annotations |
| Migration.StateName | pkg/migration/api.go:51-57 | each migration state prints as one of Executing, Succeeded, Failed |
| Migration.StateNameInjective | pkg/migration/api.go:51-57 | distinct migration states print distinctly |
| Conversion.DeploymentToCloneSet | pkg/conversion/cloneset_convertion.go:26-61 | the CloneSet keeps the Deployment's metadata under the new name, and its replicas, selector, template and history limit |
| Conversion.ConversionIgnoresName | pkg/conversion/cloneset_convertion.go:26-61 | the Deployment's own name and strategy type do not affect the converted CloneSet |
| Conversion.RecreateDeploymentHasNoSurge | pkg/conversion/cloneset_convertion.go:52-59 | a Deployment without a rolling-update block converts to a CloneSet without surge or unavailability limits |
| Workloads.AdvancedDaemonSetFrom | pkg/migration/daemonset/daemonset_migration.go:72-85 | the Advanced DaemonSet has the given name and namespace, the source's labels, selector, template and update strategy type, and no annotations or finalizers |
| Workloads.AdvancedDaemonSetUsesOnly | pkg/creation/daemonset/daemonset_creation.go:45-58 | two DaemonSets that agree on labels, selector, template and strategy type yield the same Advanced DaemonSet |
| CloneSetMigration.GetDeploymentAndCloneSetObjects | pkg/migration/cloneset/cloneset_migration.go:326-338 | the lookup succeeds exactly when both the Deployment and the CloneSet exist, and then returns those two objects |
| CloneSetMigration.ValidateSubmit | pkg/migration/cloneset/cloneset_migration.go:115-148 | a non-positive Replicas option, a source that is not a Deployment, a destination that is not a CloneSet, a missing object, a non-positive MaxSurge, or an object already held by an executing task each make the submission fail, and nothing else does; on success, an absent Replicas option defaults to the Deployment's replicas and an absent MaxSurge defaults to 1 |
| CloneSetMigration.SubmitRejectsBeforeReading | pkg/migration/cloneset/cloneset_migration.go:116-122 | an invalid Replicas option or a wrong kind is rejected the same way whatever the cluster holds and whatever tasks are running |
| CloneSetMigration.NewTaskBounded | pkg/migration/cloneset/cloneset_migration.go:157-170 | a newly submitted task satisfies 0 <= Src <= Dst <= Replicas and Dst - Src <= MaxSurge with MaxSurge >= 1, and runs from a Deployment to a CloneSet |
| CloneSetMigration.ScaleKeepsBounded | pkg/migration/cloneset/cloneset_migration.go:261-296 | the scale-out or scale-in part of a step keeps the invariant 0 <= Src <= Dst <= Src + MaxSurge and Dst <= Replicas |
| CloneSetMigration.StepKeepsBounded | pkg/migration/cloneset/cloneset_migration.go:235-297 | every reconcile step keeps the bounded-surge invariant |
| CloneSetMigration.StepMonotone | pkg/migration/cloneset/cloneset_migration.go:235-297 | a step keeps the task's objects and options, never lowers a counter, leaves a finished task unchanged, and leaves Executing only for Succeeded or Failed |
| CloneSetMigration.StepWriteMatchesCounters | pkg/migration/cloneset/cloneset_migration.go:261-296 | a step writes at most one object; a CloneSet write raises Dst by what it adds to the CloneSet, a Deployment write raises Src by what it removes from the Deployment and happens only when every CloneSet replica is available, and a failed write changes no counter |
| CloneSetMigration.StepWaitsForSync | pkg/migration/cloneset/cloneset_migration.go:253-259 | while a cached object is older than the last write, or its controller has not observed its latest generation, a step writes nothing and changes nothing |
| CloneSetMigration.StepProgress | pkg/migration/cloneset/cloneset_migration.go:235-297 | on synchronised objects, with pods left to migrate, every CloneSet pod available, an accepted write and time left, a step finishes the task as Succeeded or strictly raises a counter |
| CloneSetMigration.Exclusive | pkg/migration/cloneset/cloneset_migration.go:144-148 | under the controller invariant, two different executing tasks never share a Deployment or a CloneSet |
| CloneSetMigration.ReplaceKeepsValid | pkg/migration/cloneset/cloneset_migration.go:305-310 | replacing a task by a bounded one with the same identity, objects and state keeps the controller invariant |
| CloneSetMigration.RegisterKeepsValid | pkg/migration/cloneset/cloneset_migration.go:171-176 | registering a bounded executing task under a fresh ID, on objects no task holds, keeps the controller invariant |
| CloneSetMigration.Control.constructor | pkg/migration/cloneset/cloneset_migration.go:78-113 | a new controller holds no tasks, no index entries, no handled kinds and an empty queue, and its invariant holds |
| CloneSetMigration.Control.AddEventHandler | pkg/migration/cloneset/cloneset_migration.go:192-208 | succeeds exactly when the kind is already handled or is the Deployment or CloneSet kind with an available informer; only a success adds the kind to the handled set |
| CloneSetMigration.Control.Submit | pkg/migration/cloneset/cloneset_migration.go:115-179 | the answer follows ValidateSubmit and the handler registrations; on success a new Executing task is stored, indexed under both objects and enqueued, and the invariant is kept |
| CloneSetMigration.Control.Register | pkg/migration/cloneset/cloneset_migration.go:157-176 | the task is stored under the next ID, indexed under its Deployment and CloneSet and enqueued once, and the invariant is kept |
| CloneSetMigration.Control.Query | pkg/migration/cloneset/cloneset_migration.go:181-190 | a stored task's result is returned, and an unknown ID gives the "not found ID" error |
| CloneSetMigration.Control.FinishTask | pkg/migration/cloneset/cloneset_migration.go:312-324 | the task gets the terminal state and message, and both of its objects are released from the index |
| CloneSetMigration.Control.UpdateCloneSet | pkg/migration/cloneset/cloneset_migration.go:268-271 | a rejected write changes nothing; an accepted one sets the CloneSet's replicas and bumps its generation |
| CloneSetMigration.Control.UpdateDeployment | pkg/migration/cloneset/cloneset_migration.go:286-289 | a rejected write changes nothing; an accepted one sets the Deployment's replicas and bumps its generation |
| CloneSetMigration.Control.Reconcile | pkg/migration/cloneset/cloneset_migration.go:235-297 | the new task and cluster state are the ones ReconcileStep computes, and the invariant is kept |
| CloneSetMigration.Control.ScaleTask | pkg/migration/cloneset/cloneset_migration.go:261-296 | the new task and cluster state are the ones ScaleStep computes |
| CloneSetMigration.Control.ScaleOut | pkg/migration/cloneset/cloneset_migration.go:267-275 | when a scale-out is due, the CloneSet write and the task update are the ones ScaleStep computes, and an update failure changes nothing |
| CloneSetMigration.Control.ScaleIn | pkg/migration/cloneset/cloneset_migration.go:278-295 | without a due scale-out, the Deployment shrinks only once the CloneSet is fully available, as ScaleStep computes; otherwise nothing changes |
| CloneSetMigration.Control.ProcessNextWorkItem | pkg/migration/cloneset/cloneset_migration.go:215-233 | a work item is reconciled and re-enqueued exactly when the step returns an error |
| CloneSetMigrationEvents.CloneSetEventRef | pkg/migration/cloneset/event_handlers.go:33-50 | only a CloneSet object yields a reference, and that reference is of the CloneSet kind |
| CloneSetMigrationEvents.DeploymentEventRef | pkg/migration/cloneset/event_handlers.go:97-114 | only a Deployment object yields a reference, and that reference is of the Deployment kind |
| CloneSetMigrationEvents.WokenIsOwner | pkg/migration/cloneset/event_handlers.go:33-153 | an event wakes at most one task, and that task is executing and migrates from that Deployment or into that CloneSet |
| CloneSetMigrationEvents.EnqueueOwner | pkg/migration/cloneset/event_handlers.go:44-49 | the queue grows by exactly the tasks the event wakes, and the controller invariant is kept |
| CloneSetMigrationEvents.CloneSetHandler.OnAdd | pkg/migration/cloneset/event_handlers.go:33-50 | the task that owns the added CloneSet is enqueued, and nothing else changes in the queue |
| CloneSetMigrationEvents.CloneSetHandler.OnUpdate | pkg/migration/cloneset/event_handlers.go:52-70 | the task that owns the new CloneSet object is enqueued |
| CloneSetMigrationEvents.CloneSetHandler.OnDelete | pkg/migration/cloneset/event_handlers.go:72-89 | the task that owns the deleted CloneSet is enqueued |
| CloneSetMigrationEvents.DeploymentHandler.OnAdd | pkg/migration/cloneset/event_handlers.go:97-114 | the task that owns the added Deployment is enqueued |
| CloneSetMigrationEvents.DeploymentHandler.OnUpdate | pkg/migration/cloneset/event_handlers.go:116-134 | the task that owns the new Deployment object is enqueued |
| CloneSetMigrationEvents.DeploymentHandler.OnDelete | pkg/migration/cloneset/event_handlers.go:136-153 | the task that owns the deleted Deployment is enqueued |
| CloneSetCreation.CheckKinds | pkg/creation/cloneset/cloneset_creation.go:59-63 | the kind checks pass exactly when the source is a Deployment and the destination a CloneSet |
| CloneSetCreation.CreatePlan | pkg/creation/cloneset/cloneset_creation.go:58-75 | a wrong kind, an existing destination CloneSet, a failed read or a missing Deployment each give their error, in that order; otherwise the plan is the converted Deployment under the destination name |
| CloneSetCreation.CreatedInSourceNamespace | pkg/creation/cloneset/cloneset_creation.go:73-74 | the created CloneSet lands in the source Deployment's namespace under the destination name |
| CloneSetCreation.Control.constructor | pkg/creation/cloneset/cloneset_creation.go:39-56 | a new control sees the given Deployments and CloneSets |
| CloneSetCreation.Control.EnsureCloneSetNotExists | pkg/creation/cloneset/cloneset_creation.go:85-93 | succeeds exactly when the read works and no CloneSet has the name; an existing CloneSet gives "already exists" and a failed read gives "failed to get" |
| CloneSetCreation.Control.GetDeployment | pkg/creation/cloneset/cloneset_creation.go:77-83 | succeeds exactly when the read works and the Deployment exists, returning it; otherwise gives "failed to get" |
| CloneSetCreation.Control.CreateCloneSet | pkg/creation/cloneset/cloneset_creation.go:74-74 | the CloneSet is stored under its key unless the key is taken or the server fails, and then nothing changes |
| CloneSetCreation.Control.Create | pkg/creation/cloneset/cloneset_creation.go:58-75 | the error and the new set of CloneSets are the ones CreatePlan and the create call determine; Deployments are never changed |
| StatefulSetCreation.AdvancedStatefulSetFor | pkg/creation/statefulset/statefulset_creation.go:43-75 | the Advanced StatefulSet has the destination's name and namespace and the source's labels, keeps only the partition of the update strategy, and copies the replicas only when asked to and present, else 0 |
| StatefulSetCreation.Control.constructor | pkg/creation/statefulset/statefulset_creation.go:25-32 | a new control sees the given StatefulSets and Advanced StatefulSets |
| StatefulSetCreation.Control.Create | pkg/creation/statefulset/statefulset_creation.go:37-78 | a missing source gives the read error; otherwise the built object is created unless the name is taken or the server fails, and the error is returned as it is |
| DaemonSetCreation.Control.constructor | pkg/creation/daemonset/daemonset_creation.go:27-34 | a new control sees the given DaemonSets and Advanced DaemonSets |
| DaemonSetCreation.Control.Create | pkg/creation/daemonset/daemonset_creation.go:37-62 | a missing source gives the read error; otherwise the Advanced DaemonSet built from it is created unless the name is taken or the server fails |
| StatefulSetMigration.MigratedStatefulSet | pkg/migration/statefulset/statefulset_migration.go:71-88 | the Advanced StatefulSet has the destination's name and namespace, the source's labels, and the source's spec with minReadySeconds dropped |
| StatefulSetMigration.RecordKeepsValid | pkg/migration/statefulset/statefulset_migration.go:99-103 | recording a task under the next ID keeps the task store valid and leaves every earlier task unchanged |
| StatefulSetMigration.Control.constructor | pkg/migration/statefulset/statefulset_migration.go:42-62 | a new controller holds no tasks |
| StatefulSetMigration.Control.CreateAdvancedStatefulSet | pkg/migration/statefulset/statefulset_migration.go:89-91 | the object is stored under its key unless the key is taken or the server fails, and then nothing changes |
| StatefulSetMigration.Control.OrphanDeleteStatefulSet | pkg/migration/statefulset/statefulset_migration.go:93-97 | the StatefulSet is removed exactly when the delete does not fail |
| StatefulSetMigration.Control.Submit | pkg/migration/statefulset/statefulset_migration.go:65-105 | read, create and orphan-delete run in order, each only after the one before succeeded; a Succeeded task is recorded only when all three succeed, and a failed delete leaves the created object in place |
| StatefulSetMigration.Control.Query | pkg/migration/statefulset/statefulset_migration.go:108-118 | a recorded task returns its Succeeded result and an unknown ID gives "task ... not found" |
| DaemonSetMigration.RecordKeepsValid | pkg/migration/daemonset/daemonset_migration.go:96-100 | recording a task under the next ID keeps the task store valid and leaves every earlier task unchanged |
| DaemonSetMigration.Control.constructor | pkg/migration/daemonset/daemonset_migration.go:43-63 | a new controller holds no tasks |
| DaemonSetMigration.Control.CreateAdvancedDaemonSet | pkg/migration/daemonset/daemonset_migration.go:86-88 | the object is stored under its key unless the key is taken or the server fails, and then nothing changes |
| DaemonSetMigration.Control.OrphanDeleteDaemonSet | pkg/migration/daemonset/daemonset_migration.go:90-94 | the DaemonSet is removed exactly when the delete does not fail |
| DaemonSetMigration.Control.Submit | pkg/migration/daemonset/daemonset_migration.go:66-102 | read, create and orphan-delete run in order, each only after the one before succeeded; a Succeeded task is recorded only when all three succeed, and a failed delete leaves the created object in place |
| DaemonSetMigration.Control.Query | pkg/migration/daemonset/daemonset_migration.go:105-115 | a recorded task returns its Succeeded result and an unknown ID gives "task ... not found" |
| MigrateCommand.MigrationOptionsFor | cmd/migrate/migrate_cloneset.go:59-68 | Replicas is forwarded exactly when the flag is at least 0, MaxSurge exactly when at least 1, and the timeout exactly when positive, each with the flag's value |
| MigrateCommand.ExplicitZeroReplicasRejected | cmd/migrate/migrate_cloneset.go:59-73 | an explicit `--replicas 0` is forwarded and then refused by Submit whatever the cluster holds, while the default -1 leaves Replicas unset |
| MigrateCommand.DefaultFlagsPassOptionChecks | pkg/cmd/migrate/migrate.go:81-83 | with the default flags, a submission with correct kinds, existing objects and no running task succeeds, with MaxSurge 1 and the Deployment's replica count |
| MigrateCommand.PollSucceedsIff | cmd/migrate/migrate_cloneset.go:75-97 | the command returns without error exactly when some poll shows the task Succeeded and every poll before it shows it still executing |
| MigrateCommand.PollFailureCarriesMessage | cmd/migrate/migrate_cloneset.go:92-93 | a task that fails after running polls is reported as "failed to migrate: " followed by the task's message |
| MigrateCommand.MigrateOptions.constructor | pkg/cmd/migrate/migrate.go:75-83 | the options start with the flag defaults: empty names, no create or copy, replicas -1, max surge 1, timeout -1 |
| MigrateCommand.MigrateOptions.Complete | pkg/cmd/migrate/migrate.go:88-130 | the namespace, argument count, --from, --src-name and --dst-name are checked in the source's order, each failure giving its own message; success holds exactly when all pass with a Deployment source and CloneSet destination, and then both references share the namespace |
| MigrateCommand.MigrateOptions.ProgressLinesBound | cmd/migrate/migrate_cloneset.go:75-97 | the poll loop prints at most one progress line per poll |
| MigrateCommand.MigrateOptions.ProgressLinesQuiet | cmd/migrate/migrate_cloneset.go:82-85 | when no answer moves a counter away from those Submit returned, no progress line is printed |
| MigrateCommand.MigrateOptions.Poll | cmd/migrate/migrate_cloneset.go:75-97 | the loop ends as PollEndOf says (first error, Succeeded or "failed to migrate: " message), and prints exactly ProgressLines: one line per reached poll whose counters differ from the poll before, up to and including the one that ends it; hence at most one per poll, none when the counters never change |
| MigrateCommand.MigrateOptions.Run | pkg/cmd/migrate/migrate.go:132-138 | a destination other than CloneSet succeeds and changes nothing; a CloneSet destination ends, and leaves the CloneSets and tasks, exactly as MigrateCloneSet states |
| MigrateCommand.MigrateOptions.MigrateCloneSet | cmd/migrate/migrate_cloneset.go:31-101 | with `--create`: no task is touched; a failing creation plan is returned and stores nothing; otherwise it succeeds iff the planned CloneSet's key is free and the server does not fail, and the store becomes the old one with that key set to the planned CloneSet on success and stays unchanged on failure. Without it: no CloneSet is created; a refused Submit (validation or unavailable kind) is returned with no task recorded; an accepted one records exactly the new Executing task under the next id, and the command then ends exactly as PollEndOf(polls) |
| RolloutSteps.ScaledValue | pkg/internal/polymorphichelpers/steps.go:59-59 | a missing value gives 0, an integer gives itself, and a string that is not a percentage gives 0 |
| RolloutSteps.ScaledPercentRoundTrip | pkg/internal/polymorphichelpers/steps.go:76-77 | a percentage written out as text is read back as the same number |
| RolloutSteps.BestPreviousUnique | pkg/internal/polymorphichelpers/steps.go:50-70 | at most one step is the one to go back to |
| RolloutSteps.FindPreviousStep | pkg/internal/polymorphichelpers/steps.go:50-70 | a returned step is, among the steps before the current one that route no traffic, one with the largest positive share, the latest such on a tie; the search fails with "no previous step with no traffic found" exactly when every such step has a share of at most 0 |
| RolloutSteps.RollbackGetter.constructor | pkg/internal/polymorphichelpers/steps.go:13-14 | the getter holds the requested target step |
| RolloutSteps.RollbackGetter.ResolveTarget | pkg/internal/polymorphichelpers/steps.go:25-34 | a requested step is kept and accepted iff it comes before the current step, else the "not a previous step" error; an automatic choice succeeds iff some earlier step routes no traffic and has a positive share, is then the best previous step and is remembered, and otherwise fails with "no previous step with no traffic found" |
| RolloutSteps.RollbackGetter.Apply | pkg/internal/polymorphichelpers/steps.go:13-48 | an object that is not a v1beta1 Rollout, a current step beyond the steps, a current step at most 1, and a requested step that is not before the current one each give their error and change nothing; an automatic choice is the best previous step; it succeeds exactly when the status write is reached (WritesStatus), and then only the next-step index of the blue-green status (blue-green style) or the canary status (otherwise) changes; the status is required present only on that path |
| ObjectApprover.ApprovalNotRepeatable | pkg/internal/polymorphichelpers/objectapprover.go:33-42 | once approved, a step is no longer approvable |
| ObjectApprover.Approve | pkg/internal/polymorphichelpers/objectapprover.go:30-47 | approval succeeds exactly for a Rollout of either version whose canary step is paused, turning that step Ready and changing nothing else; other objects and unpaused steps give their errors |
| RolloutPods.PodReadyFirstCondition | pkg/internal/polymorphichelpers/rollout_utils.go:50-58 | a pod is ready exactly when its first Ready condition exists and is True |
| RolloutPods.Partition | pkg/internal/polymorphichelpers/rollout_utils.go:35-47 | the old, new-not-ready and updated-ready classes together hold exactly the pods that carry a revision label |
| RolloutPods.UnlabelledPodsDropped | pkg/internal/polymorphichelpers/rollout_utils.go:36-36 | a pod without a revision label is in no class |
| RolloutPods.FilterOldNewReadyPods | pkg/internal/polymorphichelpers/rollout_utils.go:28-49 | a list failure gives its error and three empty lists; otherwise each list holds, in listing order, the labelled pods of its class |
| RolloutPods.GeneratePodsInfo | pkg/internal/polymorphichelpers/rollout_utils.go:60-74 | a list failure gives the empty text; otherwise the text names the updated ready pods, then the updated not-ready pods |
| History.LatestByKeyLaterWins | pkg/internal/polymorphichelpers/history.go:279-283 | a revision is in the map exactly when some entry carries it, and then it maps to the last entry that does |
| History.SortedInts | pkg/internal/polymorphichelpers/history.go:303-307 | the revisions come out in strictly increasing order, each once, and no others |
| History.SortRevisions | pkg/internal/polymorphichelpers/history.go:307-307 | sorting distinct revisions gives a strictly increasing sequence of the same revisions |
| History.CollectRevisions | pkg/internal/polymorphichelpers/history.go:303-306 | every revision of the map is collected exactly once |
| History.RenderRows | pkg/internal/polymorphichelpers/history.go:311-318 | one row per revision, in the given order, with its change cause or "<none>" |
| History.RenderOverview | pkg/internal/polymorphichelpers/history.go:301-320 | the text is the header followed by one row per revision in increasing revision order |
| History.PrintHistory | pkg/internal/polymorphichelpers/history.go:278-321 | the answer is PrintHistorySpec: no revisions gives the empty-history message, a requested revision gives its template or an error, and otherwise the revision table |
| History.EmptyHistoryMessage | pkg/internal/polymorphichelpers/history.go:284-286 | the empty-history message is answered exactly when the history is empty |
| History.RevisionLookup | pkg/internal/polymorphichelpers/history.go:289-299 | a positive revision no entry carries gives "unable to find the specified revision"; one some entries carry describes the template of the last of them, or names that entry when its template cannot be extracted |
| History.TemplateWithCause | pkg/internal/polymorphichelpers/history.go:205-212 | the kept template has the ReplicaSet's spec, and its annotations gain the ReplicaSet's change cause exactly when that cause is not empty |
| History.ViewDeploymentHistory | pkg/internal/polymorphichelpers/history.go:184-247 | the answer is DeploymentHistorySpec: read errors first, then the empty-history message, a requested revision's template or an error, or the revision table |
| History.UnparsableReplicaSetsSkipped | pkg/internal/polymorphichelpers/history.go:200-204 | adding a ReplicaSet whose revision annotation does not parse never changes the answer |
| History.ViewerOf | pkg/internal/polymorphichelpers/history.go:65-135 | exactly the Job, Pod, ReplicaSet, ReplicationController, CronJob and Rollout kinds install no viewer |
| History.HistoryVisitor.constructor | pkg/internal/polymorphichelpers/history.go:87-90 | a new visitor holds no viewer |
| History.HistoryVisitor.Visit | pkg/internal/polymorphichelpers/history.go:65-135 | a visit installs the viewer of its kind, or leaves the result as it was for a kind without one |
| History.HistoryViewerFor | pkg/internal/polymorphichelpers/history.go:85-104 | an Accept error is reported with the group-kind; a kind without a viewer gives "no history viewer has been implemented"; otherwise the kind's viewer is returned |
| RolloutUndo.Validate | pkg/cmd/rollout/rollout_undo.go:157-162 | the "required resource not specified" error is given exactly when there are no resource arguments, no files and no kustomize directory |
| RolloutUndo.GetWorkloadRefFromRollout | pkg/cmd/rollout/rollout_undo.go:337-351 | a v1alpha1 Rollout yields the kind, API version and name of its object reference, a v1beta1 Rollout its spec's workload reference, and any other object "unsupported version of Rollout" |
| RolloutUndo.ContributionOf | pkg/cmd/rollout/rollout_undo.go:278-311 | a resolved non-Rollout argument is undone now under its Kind.Version.Group/Name key; a nil Rollout gives "Rollout object not found"; a Rollout is deferred only with a readable workload reference and API version, keyed by that workload |
| RolloutUndo.VisitStepKeepsInvariant | pkg/cmd/rollout/rollout_undo.go:296-310 | each callback keeps the de-duplication set equal to the workloads undone or deferred so far, none of them twice |
| RolloutUndo.FirstPassInvariant | pkg/cmd/rollout/rollout_undo.go:276-311 | after the first pass the de-duplication set holds exactly the undone and deferred workloads, none twice |
| RolloutUndo.FirstPassSeen | pkg/cmd/rollout/rollout_undo.go:276-311 | the first pass has seen exactly the workloads the arguments stand for |
| RolloutUndo.FirstOccurrenceWins | pkg/cmd/rollout/rollout_undo.go:272-311 | a workload is undone in the first pass exactly when the first argument standing for it is the workload itself, and deferred exactly when that first argument is a Rollout |
| RolloutUndo.RunUndo | pkg/cmd/rollout/rollout_undo.go:235-335 | the workloads undone and the errors returned are those of RunUndoSpec: the first pass, then a second pass over the deferred workloads only when there are any |
| RolloutUndo.UndoneAtMostOnce | pkg/cmd/rollout/rollout_undo.go:272-335 | across both passes each workload is undone at most once, and only workloads some argument stands for |
| RolloutUndo.NoRolloutsOnePass | pkg/cmd/rollout/rollout_undo.go:313-315 | without deferred workloads there is no second pass and only the first pass's errors are returned |
| RolloutUndo.FastUndo | pkg/cmd/rollout/rollout_undo.go:164-232 | a build error is returned alone; otherwise every patch gets its outcome, exactly the patches that change something and have no error are sent, and the errors are the infos error (if any) followed by the failure message of each failing patch, in patch order |
| RolloutUndo.UndoPatches | pkg/cmd/rollout/rollout_undo.go:189-229 | the loop gives the outcomes, sent names and appended failure messages of the patches, in patch order |
| RolloutUndo.OutcomesSpec | pkg/cmd/rollout/rollout_undo.go:189-229 | there is one outcome per patch, at the patch's position |
| RolloutUndo.FailureMessagesSpec | pkg/cmd/rollout/rollout_undo.go:190-219 | a message is reported exactly when some patch fails with it, at most one per patch |
| RolloutUndo.NoChangePatchNotSent | pkg/cmd/rollout/rollout_undo.go:201-211 | an empty or "{}" patch is reported as already rolled back and never sent |
| SetImage.WithImage | pkg/cmd/set/set_image.go:298-308 | every container keeps its position; a container is changed exactly when its name matches or the name is "*", and then only its image |
| SetImage.SetImage | pkg/cmd/set/set_image.go:298-308 | the array afterwards is WithImage of the array before, and the answer is true exactly when some container was selected |
| SetImage.WithImageIdempotent | pkg/cmd/set/set_image.go:298-308 | setting the same image twice changes nothing further; names and unselected containers are kept, and selected ones carry the image |
| SetImage.SidecarsWithImage | pkg/cmd/set/set_image.go:311-321 | the sidecar list keeps its length |
| SetImage.SetSidecarImage | pkg/cmd/set/set_image.go:311-321 | the array afterwards is SidecarsWithImage of the array before, and the answer is true exactly when some sidecar was selected |
| SetImage.SidecarRuleMatchesContainerRule | pkg/cmd/set/set_image.go:298-321 | sidecar containers follow exactly the selection rule of plain containers and keep their other fields |
| SetImage.HasWildcardKey | pkg/cmd/set/set_image.go:334-337 | true exactly when "*" is among the requested names |
| SetImage.ResolveImage | pkg/cmd/set/set_image.go:345-347 | the image name is used as given and never fails |
| SetImage.ValidateErrors | pkg/cmd/set/set_image.go:200-217 | each of the five checks (--all with --selector, no resources, no images, "*" with other names, --local with server dry-run) contributes its error exactly when it fails |
| SetImage.ApplyTo | pkg/cmd/set/set_image.go:225-246 | a container keeps its name whatever images are applied |
| SetImage.ApplyImages | pkg/cmd/set/set_image.go:225-246 | every container keeps its position and receives the whole image map |
| SetImage.ApplyImage | pkg/cmd/set/set_image.go:234-245 | one requested name is set on both lists, which then hold one more name's image, and the answer says whether it selected nothing |
| SetImage.ErrorsForMissing | pkg/cmd/set/set_image.go:243-245 | the errors name exactly the requested names that select no container in either list |
| SetImage.UpdatePodSpec | pkg/cmd/set/set_image.go:223-248 | both container lists become ApplyImages of what they were, and a "unable to find container" error is given for exactly the requested names that select nothing |
| SetEnv.ReplaceNonKeyChars | pkg/cmd/set/set_env.go:193-195 | the text keeps its length and afterwards holds only letters, digits and underscores |
| SetEnv.KeyToEnvName | pkg/cmd/set/set_env.go:193-195 | the name keeps the key's length; letters are upper-cased, digits and underscores kept, and every other character becomes '_' |
| SetEnv.KeyToEnvNameFixedPoints | pkg/cmd/set/set_env.go:193-195 | a key is left unchanged exactly when it is already made of upper-case letters, digits and underscores |
| SetEnv.KeyToEnvNameIdempotent | pkg/cmd/set/set_env.go:193-195 | converting a converted name again changes nothing |
| SetEnv.Contains | pkg/cmd/set/set_env.go:197-208 | a key is selected exactly when the key list is empty or lists it |
| SetEnv.FindEnvSpec | pkg/cmd/set/set_env.go:186-186 | nothing is found exactly when no existing variable has the name; otherwise the answer is the first existing variable of that name |
| SetEnv.ValidateNoOverwrites | pkg/cmd/set/set_env.go:184-191 | an error is given exactly when some new variable would replace an existing one of the same name with a different value |
| SetEnv.CompleteError | pkg/cmd/set/set_env.go:212-219 | --all with --selector is reported first, then environment arguments before resources; otherwise there is no error |
| SetEnv.Validate | pkg/cmd/set/set_env.go:250-264 | the first failing check is reported in the source's order (--local with server dry-run, no resources, --list with --output, --keys without --from), and no error exactly when all pass |
| SetEnv.WithPrefix | pkg/cmd/set/set_env.go:336-340 | every variable keeps its position and value and is renamed to the prefix followed by its old name |
| SetEnv.ApplyPrefix | pkg/cmd/set/set_env.go:336-340 | a non-empty prefix renames every collected variable in place as WithPrefix says; an empty one changes nothing |
| ScaleDown.Wrap32 | pkg/cmd/scaledown/scaledown_cloneset.go:39-39 | the result is a 32-bit integer congruent to the input modulo 2^32, and equal to it when it already fits |
| ScaleDown.CloneSet.constructor | pkg/cmd/scaledown/scaledown_cloneset.go:32-32 | the cached CloneSet holds the given name, 32-bit replica count and pods to delete |
| ScaleDown.PodList | pkg/cmd/scaledown/scaledown_cloneset.go:38-38 | the pod names are the pieces between commas: one more than there are commas, none containing a comma |
| ScaleDown.ScaledReplicas | pkg/cmd/scaledown/scaledown_cloneset.go:39-39 | the new count is a 32-bit integer, and equals the old count minus the number of listed pods whenever that fits |
| ScaleDown.ReplicasMayGoNegative | pkg/cmd/scaledown/scaledown_cloneset.go:38-41 | nothing bounds the count below: two pods taken from one replica leave -1 |
| ScaleDown.EmptyPodsIsOneName | pkg/cmd/scaledown/scaledown_cloneset.go:38-38 | an empty `--pods` is still one, empty, pod name |
| ScaleDown.FetchFailureAsWritten | pkg/cmd/scaledown/scaledown_cloneset.go:32-36 | as written, a read error is reported with its text, and an absent CloneSet without a read error dereferences the nil error |
| ScaleDown.AbsentCloneSetDereferencesNil | pkg/cmd/scaledown/scaledown_cloneset.go:33-35 | the input that shows it: a CloneSet that is not in the cache, with no read error |
| ScaleDown.FetchError | pkg/cmd/scaledown/scaledown_cloneset.go:32-36 | corrected: the fetch fails exactly when there is a read error or no CloneSet, and every failure is reported with the "failed to retrieve CloneSet" prefix |
| ScaleDown.FetchErrorAgreesWhereDefined | pkg/cmd/scaledown/scaledown_cloneset.go:32-36 | wherever the code as written does not crash, the corrected check fails in the same cases with the same message |
| ScaleDown.ScaleDownCloneSet | pkg/cmd/scaledown/scaledown_cloneset.go:31-55 | a failed fetch returns its error and changes nothing; otherwise the replica count drops by the listed pods in 32-bit arithmetic, the pods are appended to those to delete, and an update error or else the print error is returned |
| CreateBroadcastJob.CommandFromArgs | pkg/cmd/create/create_broadcast_job.go:116-123 | there is a command exactly when there is more than the job name, and then it is every argument after the name |
| CreateBroadcastJob.Validate | pkg/cmd/create/create_broadcast_job.go:159-167 | "either --image or --from" is given exactly when both or neither are set; "cannot specify --from and command" when --from comes with a non-empty command; no error exactly when exactly one is set and --from has no command |
| CreateBroadcastJob.FromJobsTakeNoCommand | pkg/cmd/create/create_broadcast_job.go:121-123 | a valid job created from a cron job was given no command-line arguments beyond its name |
| CreateBroadcastJob.NamespaceOf | pkg/cmd/create/create_broadcast_job.go:245-247 | the job's namespace is the command's namespace only when it is enforced, otherwise empty |
| CreateBroadcastJob.JobFromImage | pkg/cmd/create/create_broadcast_job.go:223-249 | the job has the given name, one container named after it running the image and command, restart policy Never, and no annotations, labels or owners |
| CreateBroadcastJob.MergedAnnotations | pkg/cmd/create/create_broadcast_job.go:262-267 | the annotations are the template's plus instantiate, every template value kept, and instantiate is "manual" unless the template sets it |
| CreateBroadcastJob.MergedAnnotationsUnique | pkg/cmd/create/create_broadcast_job.go:262-267 | those three facts determine the annotation map completely |
| CreateBroadcastJob.TemplateAnnotations | pkg/cmd/create/create_broadcast_job.go:262-267 | the key-by-key copying loop yields exactly MergedAnnotations of the template |
| CreateBroadcastJob.JobFromTemplate | pkg/cmd/create/create_broadcast_job.go:259-291 | the job has the given name, batch/v1 Job type, the template's labels and spec, the merged annotations, and the cron job as its single owner; it is TemplateJob of its inputs |
| CreateBroadcastJob.BuildJob | pkg/cmd/create/create_broadcast_job.go:170-199 | with an image the job is JobFromImage; otherwise a lookup error, a count other than one, an object that is not an AdvancedCronJob, and a cron job that does not hold a BroadcastJob template each give their error, and success gives exactly TemplateJob of the options and the cron job's name, UID and template |
| CreateCrr.CrrContainerAsWritten | pkg/cmd/create/create_crr.go:242-254 | as written, a container with a lifecycle but no preStop hook dereferences the nil hook, and every other container converts with its name, ports and a preStop handler exactly when it has a lifecycle |
| CreateCrr.LifecycleWithoutPreStopDereferencesNil | pkg/cmd/create/create_crr.go:244-249 | the input that shows it: a container whose lifecycle has no preStop hook |
| CreateCrr.CrrContainerOf | pkg/cmd/create/create_crr.go:242-254 | corrected: the entry has the container's name and ports, and a preStop handler exactly when the container has one, equal to it |
| CreateCrr.CrrContainerAgreesWhereDefined | pkg/cmd/create/create_crr.go:242-254 | wherever the code as written does not crash, the corrected conversion gives the same entry |
| CreateCrr.CrrContainersOf | pkg/cmd/create/create_crr.go:242-254 | every pod container is converted, in pod order |
| CreateCrr.SelectedOnly | pkg/cmd/create/create_crr.go:258-262 | the kept entries are exactly those whose name is selected, in their original order |
| CreateCrr.ContainersForRequestMembers | pkg/cmd/create/create_crr.go:255-265 | without names every pod container is covered; with names exactly the pod containers so named |
| CreateCrr.ConvertAll | pkg/cmd/create/create_crr.go:242-254 | the first loop converts every pod container, in pod order |
| CreateCrr.KeepSelected | pkg/cmd/create/create_crr.go:258-262 | the second loop keeps exactly the converted entries whose name is selected, in their order |
| CreateCrr.AllCrrContainersInPod | pkg/cmd/create/create_crr.go:233-266 | a failed pod read gives its error; otherwise the result is every converted container, or only the named ones |
| CreateCrr.NamespaceOrDefault | pkg/cmd/create/create_crr.go:158-160 | the namespace is never empty, and a configured one is kept |
| CreateCrr.CompleteContainers | pkg/cmd/create/create_crr.go:165-171 | without container names all of the pod's containers are stored, or the read error is returned; with names none are stored |
| CreateCrr.Validate | pkg/cmd/create/create_crr.go:190-209 | a missing pod, an unreadable pod and a name that is not one of the pod's containers each give their error, and no error exactly when every name is a container of the pod |
| CreateCrr.CreateCrr | pkg/cmd/create/create_crr.go:276-296 | the request names the pod and the stored containers and always has the default strategy (Fail, not ordered), deadlines and time to live |
| Base64.Encode | cmd/resourcedistributiongenerator/generator/utils.go:222-227 | the padded standard encoding has the length `EncodedLen` gives: four characters per started group of three bytes |
| Base64.DecodeEncode | cmd/resourcedistributiongenerator/generator/utils.go:227-227 | decoding what was encoded gives back the input bytes, for every input |
| Base64.UnwrapChunked | cmd/resourcedistributiongenerator/generator/utils.go:229-239 | deleting the newlines of the chunked text gives back the plain encoding |
| Base64.WrappedUnwraps | cmd/resourcedistributiongenerator/generator/utils.go:220-241 | the wrapped encoding of any input, with its newlines removed, is the plain encoding |
| Base64.ChunkedNewlines | cmd/resourcedistributiongenerator/generator/utils.go:223-238 | with newlines there is exactly one per 70-character chunk, the last included; without, none |
| Base64.CopyInto | cmd/resourcedistributiongenerator/generator/utils.go:234-234 | the buffer up to the new write index holds what it held before followed by the copied text |
| Base64.WrapLines | cmd/resourcedistributiongenerator/generator/utils.go:228-240 | the copying loop returns exactly the wrapped form of the encoding |
| Base64.EncodeBase64 | cmd/resourcedistributiongenerator/generator/utils.go:220-241 | the result is the plain encoding when shorter than 70 characters, and otherwise the encoding cut into 70-character lines each ending in a newline |
| Yaml.FindFieldSpec | cmd/resourcedistributiongenerator/generator/utils.go:246-252 | a field lookup finds nothing exactly when no field has the name, and otherwise returns the value of a field with that name |
| Yaml.PutFieldSpec | cmd/resourcedistributiongenerator/generator/utils.go:252-252 | `SetField` leaves the name holding the new value and every other name as it was; a new name is appended at the end, an existing one keeps its place |
| Yaml.SetAtGet | cmd/resourcedistributiongenerator/generator/utils.go:78-78 | after `SetMapField` on a path, reading that path gives the node that was set |
| Yaml.SetAtOther | cmd/resourcedistributiongenerator/generator/utils.go:116-116 | `SetMapField` on one path leaves every path that parts ways with it unchanged |
| Yaml.SetAtAppends | cmd/resourcedistributiongenerator/generator/utils.go:114-118 | setting a name that the parent mapping does not have appends exactly that field to the parent, creating the parent mapping if it was missing |
| Yaml.SetAllGet | cmd/resourcedistributiongenerator/generator/targets.go:125-131 | a series of `SetMapField` calls on pairwise diverging paths leaves each path holding its own node |
| Yaml.FieldEdits | cmd/resourcedistributiongenerator/generator/utils.go:114-118 | one edit per field, in order, each aimed at the parent path extended by the field's name |
| Yaml.FieldEditsAppend | cmd/resourcedistributiongenerator/generator/utils.go:108-121 | setting fields with distinct new names below one parent leaves the parent's old fields followed by the new ones in the order set |
| Yaml.SetAllOther | cmd/resourcedistributiongenerator/generator/utils.go:114-118 | edits whose paths all part ways with a path leave that path as it was |
| Yaml.LookupCreateKeeps | cmd/resourcedistributiongenerator/generator/utils.go:246-246 | after `LookupCreate(MappingNode, path)` a mapping sits at the path holding the fields that were there before, or none |
| Yaml.LookupCreateOther | cmd/resourcedistributiongenerator/generator/utils.go:193-195 | `LookupCreate` leaves every path that parts ways with its own unchanged |
| Yaml.RNode.constructor | cmd/resourcedistributiongenerator/generator/targets.go:209-213 | the new node wraps exactly the given tree |
| Yaml.RNode.SetMapField | cmd/resourcedistributiongenerator/generator/utils.go:78-78 | the wrapped tree becomes the old tree with the node set at the path |
| Yaml.RNode.LookupCreateMapping | cmd/resourcedistributiongenerator/generator/utils.go:246-246 | the wrapped tree becomes the old tree with a mapping ensured at the path |
| GenUtils.SortedFieldsFacts | cmd/resourcedistributiongenerator/generator/utils.go:114-114 | the fields built from a map in `SortedMapKeys` order have distinct names in increasing order, one per key, each carrying that key's value |
| GenUtils.WithLabelsGet | cmd/resourcedistributiongenerator/generator/utils.go:108-121 | after `setLabelsOrAnnotations` every label or annotation is found at its key below the given path |
| GenUtils.WithLabelsAppends | cmd/resourcedistributiongenerator/generator/utils.go:114-119 | labels whose keys the mapping lacks are appended after its existing fields in increasing key order |
| GenUtils.WithLabelsOther | cmd/resourcedistributiongenerator/generator/utils.go:108-121 | setting labels below a path leaves every path that parts ways with it unchanged |
| GenUtils.SetLabelsOrAnnotations | cmd/resourcedistributiongenerator/generator/utils.go:108-121 | the loop makes one `SetMapField` per key in sorted order, and a nil map changes nothing |
| GenUtils.SetResourceKind | cmd/resourcedistributiongenerator/generator/utils.go:97-106 | succeeds exactly for Secret or ConfigMap and then writes the kind under `spec.resource`; any other kind is refused with the fixed message and nothing is written |
| GenUtils.SetResourceName | cmd/resourcedistributiongenerator/generator/utils.go:74-82 | succeeds exactly for a non-empty name and then writes it at `spec.resource.metadata.name`; the empty name is refused with the fixed message and nothing is written |
| GenUtils.SecretType | cmd/resourcedistributiongenerator/generator/utils.go:86-89 | a Secret's type is the one given when non-empty, otherwise `Opaque`, so never empty |
| GenUtils.SetResourceType | cmd/resourcedistributiongenerator/generator/utils.go:84-95 | a Secret gets its type written under `spec.resource`; every other kind leaves the node untouched |
| GenUtils.SetImmutable | cmd/resourcedistributiongenerator/generator/utils.go:170-186 | `immutable: true` is written under `spec.resource` only when options are present and ask for it |
| GenUtils.CharLen | cmd/resourcedistributiongenerator/generator/utils.go:206-206 | the length of a well-formed UTF-8 character at the start of the bytes is at most four and fits in them |
| GenUtils.AsciiIsValidUtf8 | cmd/resourcedistributiongenerator/generator/utils.go:206-208 | ASCII bytes are valid UTF-8, so such values stay readable under `data` |
| GenUtils.NeverAppearing | cmd/resourcedistributiongenerator/generator/utils.go:206-212 | the octets C0, C1 and F5 to FF never occur in valid UTF-8, so a value holding one goes to `binaryData` |
| GenUtils.Text | cmd/resourcedistributiongenerator/generator/utils.go:208-208 | the scalar text of a Go string has one character per byte |
| GenUtils.StrScalar | cmd/resourcedistributiongenerator/generator/utils.go:203-216 | value scalars are `!!str` and use the literal block style exactly when the text holds a newline |
| GenUtils.ConfigMapValueRoundTrip | cmd/resourcedistributiongenerator/generator/utils.go:203-217 | every ConfigMap value reads back as its bytes: text from `data`, base64 from `binaryData` with the line breaks ignored |
| GenUtils.SecretValueRoundTrip | cmd/resourcedistributiongenerator/generator/utils.go:260-272 | every Secret value decodes back to its bytes once its line breaks are removed |
| GenUtils.DataMapOk | cmd/resourcedistributiongenerator/generator/utils.go:149-168 | the data map is built exactly when every key is valid and no key repeats, and then it holds every pair and nothing else |
| GenUtils.DataMapErrPersists | cmd/resourcedistributiongenerator/generator/utils.go:156-164 | once a prefix of the pairs is refused, the whole list is refused with the same first error |
| GenUtils.MakeValidatedDataMap | cmd/resourcedistributiongenerator/generator/utils.go:149-168 | the loop over the loaded pairs returns the load error wrapped, the first invalid-key or repeated-key error, or the validated map |
| GenUtils.WithConfigMapDataGet | cmd/resourcedistributiongenerator/generator/utils.go:190-200 | every ConfigMap key ends up below `data` or `binaryData`, as its value's encoding chooses, holding its value node |
| GenUtils.SetAtLookupCreate | cmd/resourcedistributiongenerator/generator/utils.go:193-195 | `LookupCreate` of the parent mapping followed by `SetField` is the same as setting the value at the parent path plus the key |
| GenUtils.PutFieldTwice | cmd/resourcedistributiongenerator/generator/utils.go:195-195 | setting a field twice keeps only the second value |
| GenUtils.LoadMapIntoConfigMapData | cmd/resourcedistributiongenerator/generator/utils.go:190-200 | the loop makes one `LookupCreate` plus `SetField` per key in sorted order |
| GenUtils.WithSecretDataGet | cmd/resourcedistributiongenerator/generator/utils.go:245-257 | every Secret key ends up below `data` holding its base64 value |
| GenUtils.WithSecretDataFields | cmd/resourcedistributiongenerator/generator/utils.go:245-257 | the Secret values are appended to a `data` mapping that lacks their keys, in increasing key order |
| GenUtils.LoadMapIntoSecretData | cmd/resourcedistributiongenerator/generator/utils.go:245-257 | the `data` mapping is ensured once, then one `SetField` per key in sorted order |
| GenUtils.SetData | cmd/resourcedistributiongenerator/generator/utils.go:123-146 | the node and error are those of validating the pairs and then loading them as ConfigMap data, or as Secret data for every other kind |
| GenUtils.SetResource | cmd/resourcedistributiongenerator/generator/utils.go:44-72 | the node and error are those of running data, immutability, kind, annotations, labels, name and type in order, stopping at the first error |
| GenUtils.ResourceErrors | cmd/resourcedistributiongenerator/generator/utils.go:44-72 | `setResource` fails exactly when the data cannot be validated, the kind is neither Secret nor ConfigMap, or the name is empty, and it reports the first of these |
| GenUtils.WithKindAndMetaOther | cmd/resourcedistributiongenerator/generator/utils.go:52-63 | the kind, annotations and labels steps touch nothing else below `spec.resource` |
| GenUtils.WithKindAndMetaGet | cmd/resourcedistributiongenerator/generator/utils.go:52-63 | the kind is in place after the annotations and labels are set |
| GenUtils.WithNameAndTypeOther | cmd/resourcedistributiongenerator/generator/utils.go:65-70 | the name and type steps touch nothing else below `spec.resource` |
| GenUtils.WithNameAndTypeGet | cmd/resourcedistributiongenerator/generator/utils.go:65-70 | the name is in place afterwards, and for a Secret its type |
| GenUtils.AfterDataOther | cmd/resourcedistributiongenerator/generator/utils.go:49-70 | the steps after `setData` touch nothing below `spec.resource` except the immutability flag, the kind, the metadata and the type |
| GenUtils.DataOther | cmd/resourcedistributiongenerator/generator/utils.go:123-146 | `setData` writes nothing outside the resource's `data` and `binaryData` |
| GenUtils.ImmutableOutside | cmd/resourcedistributiongenerator/generator/utils.go:170-186 | `setImmutable` writes nothing outside `spec.resource` |
| GenUtils.KindAndMetaOutside | cmd/resourcedistributiongenerator/generator/utils.go:52-63 | the kind and metadata steps write nothing outside `spec.resource` |
| GenUtils.MetadataOutside | cmd/resourcedistributiongenerator/generator/utils.go:57-61 | annotations and labels below the resource's metadata write nothing outside `spec.resource` |
| GenUtils.NameAndTypeOutside | cmd/resourcedistributiongenerator/generator/utils.go:65-70 | the name and type steps write nothing outside `spec.resource` |
| GenUtils.ResourceOutside | cmd/resourcedistributiongenerator/generator/utils.go:44-72 | `setResource`, whether it fails or not, writes nothing outside `spec.resource` |
| GenUtils.ResourceKeepsData | cmd/resourcedistributiongenerator/generator/utils.go:44-72 | on success, whatever `setData` left on a path that the later steps do not write is still there |
| GenUtils.ResourceRoot | cmd/resourcedistributiongenerator/generator/utils.go:44-72 | on success all the steps after `setData` have run |
| GenUtils.ResourceData | cmd/resourcedistributiongenerator/generator/utils.go:44-72 | a successful `setResource` leaves every ConfigMap key below `data` or `binaryData`, and every Secret key below `data`, with its value |
| GenUtils.ResourceKindNameType | cmd/resourcedistributiongenerator/generator/utils.go:44-72 | a successful `setResource` leaves the kind, the name and, for a Secret, the type where they belong |
| GenTargets.Insert | cmd/resourcedistributiongenerator/generator/targets.go:139-141 | inserting into a key-sorted sequence gives one more element, keeps the sort by key and adds exactly that element to the multiset |
| GenTargets.SortBy | cmd/resourcedistributiongenerator/generator/targets.go:139-141 | `sort.Slice` by key returns a permutation of its input, ordered by key |
| GenTargets.SortStrings | cmd/resourcedistributiongenerator/generator/targets.go:177-177 | `sort.Strings` on an expression's values returns a permutation of them in ascending order |
| GenTargets.SortRequirements | cmd/resourcedistributiongenerator/generator/targets.go:139-141 | the caller's slice is sorted in place by key, as a permutation of its old contents |
| GenTargets.ValuesErrPersists | cmd/resourcedistributiongenerator/generator/targets.go:178-189 | once the values loop has returned an error, the values after it do not change the outcome |
| GenTargets.ValuesResultSorted | cmd/resourcedistributiongenerator/generator/targets.go:176-189 | on sorted values the loop reports `invalid` exactly when an empty value is present, otherwise `cannot be repeated` exactly when a value repeats, otherwise yields the values in order as plain scalars |
| GenTargets.MakeValueList | cmd/resourcedistributiongenerator/generator/targets.go:175-189 | the values loop with its seen-set returns the values' list node or the first error, as `ValuesResult` defines |
| GenTargets.RequirementResultSpec | cmd/resourcedistributiongenerator/generator/targets.go:145-199 | an expression is checked for an empty key, an invalid operator, missing values, an empty value, a repeated value and values where none are allowed, in that order; a valid one becomes its key, operator and ascending values |
| GenTargets.MakeElement | cmd/resourcedistributiongenerator/generator/targets.go:145-199 | one expression's checks return its element or its error, and only that expression's values are sorted in the caller's slice |
| GenTargets.Processed | cmd/resourcedistributiongenerator/generator/targets.go:145-200 | the loop reaches every expression, or stops at the first that fails |
| GenTargets.ExpressionsErrPersists | cmd/resourcedistributiongenerator/generator/targets.go:145-200 | once an expression fails, the later expressions are neither checked nor touched |
| GenTargets.ExpressionsResultOk | cmd/resourcedistributiongenerator/generator/targets.go:145-200 | the list of expressions is accepted exactly when every expression is |
| GenTargets.ExpressionsResultElements | cmd/resourcedistributiongenerator/generator/targets.go:199-199 | an accepted list holds one element per expression, in order |
| GenTargets.MakeElementList | cmd/resourcedistributiongenerator/generator/targets.go:145-200 | the loop returns the elements or the first error, and leaves the values sorted in every expression it reached |
| GenTargets.SetMatchExpressions | cmd/resourcedistributiongenerator/generator/targets.go:134-207 | a nil slice changes nothing; otherwise the slice is sorted by key, and the node and error are those of checking every expression and setting the list at `matchExpressions` |
| GenTargets.ExpressionsValid | cmd/resourcedistributiongenerator/generator/targets.go:139-199 | the sorted list is accepted exactly when every requirement is valid, whatever order the caller gave them in |
| GenTargets.ValuesErrors | cmd/resourcedistributiongenerator/generator/targets.go:179-186 | a failing values loop reports one of its two messages |
| GenTargets.ExpressionsErrors | cmd/resourcedistributiongenerator/generator/targets.go:151-195 | every error the expressions draw is one of the six expression messages |
| GenTargets.NameListRoundTrip | cmd/resourcedistributiongenerator/generator/targets.go:72-83 | the list holds exactly the given names, in order, each an untagged plain scalar |
| GenTargets.NewNameList | cmd/resourcedistributiongenerator/generator/targets.go:72-83 | the loop builds the name list for the given values |
| GenTargets.SetIncludedExcludedNs | cmd/resourcedistributiongenerator/generator/targets.go:60-68 | a nil list changes nothing; otherwise the name list is set at the path's `list` field |
| GenTargets.SetAllNs | cmd/resourcedistributiongenerator/generator/targets.go:87-101 | `allNamespaces: true` is written only when asked for; false writes nothing |
| GenTargets.SetMatchLabels | cmd/resourcedistributiongenerator/generator/targets.go:121-132 | one `SetMapField` per match label in key order; a nil map changes nothing |
| GenTargets.SetNsLabelSelector | cmd/resourcedistributiongenerator/generator/targets.go:103-119 | a nil selector changes nothing; otherwise the expressions, then the labels, with the node, error and the caller's expressions as the selector outcome defines |
| GenTargets.SetTargets | cmd/resourcedistributiongenerator/generator/targets.go:29-57 | the node, error and the caller's expressions are those of the emptiness check followed by all-namespaces, excluded, included and the selector |
| GenTargets.TargetsEmpty | cmd/resourcedistributiongenerator/generator/targets.go:30-34 | the emptiness error is reported exactly when there is no target at all, and then the node is unchanged |
| GenTargets.TargetsSucceed | cmd/resourcedistributiongenerator/generator/targets.go:29-57 | `setTargets` succeeds exactly when there is a target and every match expression is valid |
| GenTargets.NamesOther | cmd/resourcedistributiongenerator/generator/targets.go:60-68 | setting a name list touches nothing off its path |
| GenTargets.SelectorOther | cmd/resourcedistributiongenerator/generator/targets.go:103-119 | the selector touches nothing outside `namespaceLabelSelector` |
| GenTargets.TargetsAllNamespaces | cmd/resourcedistributiongenerator/generator/targets.go:36-39 | when asked for, `allNamespaces: true` is in place after `setTargets` |
| GenTargets.TargetsExcluded | cmd/resourcedistributiongenerator/generator/targets.go:41-44 | a given excluded list is in place after `setTargets`, whatever else happens |
| GenTargets.TargetsIncluded | cmd/resourcedistributiongenerator/generator/targets.go:46-49 | a given included list is in place after `setTargets`, whatever else happens |
| GenTargets.TargetsExpressions | cmd/resourcedistributiongenerator/generator/targets.go:51-54 | on success the expressions are in place, one element per requirement in key order |
| GenTargets.TargetsMatchLabels | cmd/resourcedistributiongenerator/generator/targets.go:113-131 | on success every match label is in place below `matchLabels` |
| GenTargets.NamesOutside | cmd/resourcedistributiongenerator/generator/targets.go:60-68 | a name list below `spec.targets` writes nothing outside it |
| GenTargets.NamespacesOutside | cmd/resourcedistributiongenerator/generator/targets.go:36-49 | the namespace steps write nothing outside `spec.targets` |
| GenTargets.TargetsOutside | cmd/resourcedistributiongenerator/generator/targets.go:29-57 | `setTargets`, whether it fails or not, writes nothing outside `spec.targets` |
| ResourceDistribution.MakeResourceDistribution | cmd/resourcedistributiongenerator/generator/resourcedistribution.go:104-141 | returns the node or the first error of the generator's steps, and leaves the caller's match expressions sorted only when the targets step was reached |
| ResourceDistribution.Filter | cmd/resourcedistributiongenerator/generator/resourcedistribution.go:85-94 | the input items are ignored, and the output is exactly the one generated node or the generation error |
| ResourceDistribution.GeneratedErrors | cmd/resourcedistributiongenerator/generator/resourcedistribution.go:104-141 | generation succeeds exactly when the generator and resource are named, the data validate, the kind is ConfigMap or Secret, there is a target and every expression is valid, and each failure reports the first such error |
| ResourceDistribution.GeneratedKeeps | cmd/resourcedistributiongenerator/generator/resourcedistribution.go:130-138 | the steps after the name write nothing outside `spec.resource` and `spec.targets` |
| ResourceDistribution.TemplateFields | cmd/resourcedistributiongenerator/generator/alias.go:19-27 | the template declares a ResourceDistribution of `apps.kruise.io/v1alpha1` whose resource has `apiVersion: v1` |
| ResourceDistribution.BaseFields | cmd/resourcedistributiongenerator/generator/resourcedistribution.go:105-125 | the node before `setResource` still holds the template's fields and the configured name |
| ResourceDistribution.GeneratedHeader | cmd/resourcedistributiongenerator/generator/resourcedistribution.go:104-141 | the generated node is a ResourceDistribution of `apps.kruise.io/v1alpha1` with the configured name |
| ResourceDistribution.OwnMetaOther | cmd/resourcedistributiongenerator/generator/resourcedistribution.go:111-120 | the generator's own annotations and labels touch nothing outside `metadata` |
| ResourceDistribution.GeneratedResourceVersion | cmd/resourcedistributiongenerator/generator/resourcedistribution.go:104-141 | the distributed resource keeps the template's `apiVersion: v1` |
| ResourceDistribution.GeneratedOwnLabels | cmd/resourcedistributiongenerator/generator/resourcedistribution.go:116-116 | the generator's own labels end up in its top-level metadata |
| ResourceDistribution.GeneratedOwnAnnotations | cmd/resourcedistributiongenerator/generator/resourcedistribution.go:112-112 | the generator's own annotations end up in its top-level metadata |
| Strings.SortedKeys | cmd/resourcedistributiongenerator/generator/utils.go:114-114 | `SortedMapKeys` lists every key of the map once, in strictly increasing order |
| Strings.Split | pkg/cmd/scaledown/scaledown_cloneset.go:38-38 | `strings.Split` always gives at least one piece |
| Strings.JoinSplit | pkg/cmd/scaledown/scaledown_cloneset.go:38-38 | joining the pieces with the separator gives back the input |
| Strings.SplitCount | pkg/cmd/scaledown/scaledown_cloneset.go:38-38 | there is one piece more than there are separators |
| Strings.SplitPiecesFree | pkg/cmd/scaledown/scaledown_cloneset.go:38-38 | no piece contains the separator |
| Strings.ToUpperAscii | pkg/cmd/set/set_env.go:194-194 | upper-casing keeps the length and maps each character on its own |
| Strings.Atoi | pkg/internal/polymorphichelpers/history.go:201-201 | a number parses exactly when it is a run of digits with an optional sign |
| Strings.AtoiIntToString | pkg/internal/polymorphichelpers/history.go:201-201 | every integer's decimal text parses back to it |

## Left out

- Concurrency is left out: the rate-limited work queue, the worker goroutines, and the read-write and per-task locks of the CloneSet migration controller. The queue is a set of task IDs, and each reconcile is one atomic step. So the unlocked read of `task.result` in reconcile is not modelled.
- CloneSetMigration.Control.Reconcile: requires the task ID to be stored, because `reconcile` does not check `getTask` for nil; `ProcessNextWorkItem` only hands it stored IDs.
- CloneSetMigration.Control.ScaleOut: the CloneSet's `int32` replica count is an unbounded `nat`, so the scale-out write `*dstCloneSet.Spec.Replicas += maxScaleOut` (cloneset_migration.go line 268) does not wrap when the sum passes 2^31 - 1. ScaleStep, ScaleTask and UpdateCloneSet share this. The scale-in write cannot overflow, because maxScaleIn is at most the Deployment's replica count.
- Clock and random IDs are parameters. Elapsed time is a `now` parameter in nanoseconds. Task IDs (UUIDs in the source) are drawn from a counter.
- The informer cache is the same as the API server state, so cache lag is not modelled. The generation checks that wait for a lagging cache are modelled.
- Client set-up is left out: kubeconfig loading, client and informer construction in every `NewControl`, `Complete`'s client and printer set-up in every command, and the `NewManager` singleton of pkg/api. API calls that can fail are boolean parameters, or maps of objects standing for the cluster.
- The DaemonSet and StatefulSet branches of the `migrate` command (their polling loops with `time.Sleep`) are left out; only the CloneSet branch and `Run`'s dispatch are modelled.
- MigrateCommand.MigrateOptions.Poll: the one-second sleep between polls and the closing "Successfully migrated" line are left out; the answers Query gives are the `polls` parameter, so progress covers only the "Migration progress" lines.
- Printing is left out: printers, tab alignment in the history table, describer output, `runtime.Encode` of rollout objects, and the `describe`, `get` and `top` commands. Rows of the history table are modelled as tab-separated lines.
- History's per-kind viewers (CloneSet, Advanced StatefulSet, Advanced DaemonSet, DaemonSet, StatefulSet) are not modelled beyond `printHistory`. Their controlled-history listing and strategic-merge-patch application are library work. The pod template of a revision is a parameter, and the template view returns the template itself rather than the describer's text.
- RolloutSteps.RollbackGetter.Apply: requires the blue-green or canary status to be present when the write is reached (steps.go lines 38 and 41). The source dereferences that pointer there without a check, so a Rollout with no status on that path panics; the model does not capture the panic. Earlier error returns need no status, as in the source.
- RolloutUndo: `NewCmdRolloutUndo` and `Complete` are left out. The rollbacker is an `undoError` parameter, and the result printing is left out.
- SetImage: `Complete`, `getResourcesAndImages` and the patch-sending loop of `Run` are left out. The sidecar branch of `UpdatePodSpec` is modelled only through `SetSidecarImage`. The error branch of `resolveImageFunc` cannot be taken, because the function is the identity.
- SetEnv: `RunEnv` is left out beyond the prefix rewrite and the empty-patch rule. kubectl's argument splitter in `Complete` is a boolean parameter `envArgsInOrder`. kubectl's `findEnv`, `selectContainers` and `updateEnv` are not part of this model.
- CreateBroadcastJob: the create-and-print part of `Run` and the client set-up of `Complete` are left out.
- CreateCrr: the create-and-print part of `Run` is left out. These quirks follow the code:
  - the `--containers` flag is not bound to the options;
  - `Complete` stores no containers when container names are given;
  - `Validate`'s error names the request rather than the pod;
  - the grace-period flags are ignored by `createCRR`.
- The patch runners of `rollout restart`, `rollout approve` and `rollout rollback` are left out. They are thin loops over kubectl's patch calculation; only the approver and the rollback getter they call are modelled.
- Generator: kyaml itself is not part of this model. A small tree of mappings, sequences and scalars stands for it. `SetMapField` replaces a non-mapping on its path by a mapping, which kyaml would report as an error.
- Generator: kustomize's key/value loader and its `ErrIfInvalidKey` validator are parameters (`loaded` and `invalidKey`).
- Generator: the template parse in `makeBaseNode` cannot fail, so the parsed template is a constant.
- Generator: when `setResource` or `setTargets` fails, the state of the partly edited node is described by its `Outcome`. `MakeResourceDistribution` then returns no node.
- Generator: `sort.Slice` and `sort.Strings` are not stable. The model sorts by insertion, which is one of the orders they may leave; ties between equal keys may come out in another order in the source.
- Generator: Go strings are byte strings, and the model's text carries one character per byte. The label selector type the generator reads is modelled as optional match labels plus an optional array of match expressions.
- Generator: the included and excluded namespace lists are written as plain scalars, as `newNameListRNode` (cmd/resourcedistributiongenerator/generator/targets.go:72-83) does. This agrees with targets_test.go:85-114. It disagrees with main_test.go:128-134 and resourcedistribution_test.go:74-80, which expect `- name: <ns>` entries. The model follows the code.
- Strings.Atoi: the 64-bit range limit of `strconv.Atoi` is not modelled; any run of digits parses.
- ScaleDown.ScaleDownCloneSet: models the corrected fetch check (an absent CloneSet reports "not found"), not the nil dereference of the code as written; see Findings.
- CreateCrr.CrrContainersOf: models the corrected conversion (a preStop handler only when one is set), not the nil dereference of the code as written; see Findings.

## Findings

| source | as written | input that shows it | evidently intended | confidence | as-written member | corrected member |
|---|---|---|---|---|---|---|
| pkg/cmd/scaledown/scaledown_cloneset.go:33-35 | a read error and an absent CloneSet take the same branch, which formats `err.Error()` | a CloneSet missing from the cache with no read error, so `err` is nil and is dereferenced | report that the CloneSet was not found | not executed | ScaleDown.FetchFailureAsWritten, ScaleDown.AbsentCloneSetDereferencesNil | ScaleDown.FetchError, ScaleDown.FetchErrorAgreesWhereDefined |
| pkg/cmd/create/create_crr.go:244-249 | a container with a `Lifecycle` gets `Lifecycle.PreStop` copied, which is dereferenced even when nil | a container whose lifecycle has only a postStart hook | copy the preStop handler only when it is set | not executed | CreateCrr.CrrContainerAsWritten, CreateCrr.LifecycleWithoutPreStopDereferencesNil | CreateCrr.CrrContainerOf, CreateCrr.CrrContainerAgreesWhereDefined |
