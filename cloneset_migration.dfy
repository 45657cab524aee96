/** The bounded-surge Deployment to CloneSet migration controller
    (pkg/migration/cloneset/cloneset_migration.go).

    A task moves `Replicas` pods from a Deployment to a CloneSet. Each reconcile step
    performs at most one replica write: it scales the CloneSet out by at most the surge
    still available, or scales the Deployment in by at most what the CloneSet has
    already taken over, once every CloneSet pod is available. The task result counts
    `SrcMigratedReplicas` (removed from the Deployment) and `DstMigratedReplicas`
    (added to the CloneSet); the step keeps Src <= Dst <= Replicas and
    Dst - Src <= MaxSurge. */
module CloneSetMigration {
  import opened Wrappers
  import opened Strings
  import opened Api
  import Migration
  import Utils

  /** The part of a Deployment or CloneSet object the controller reads and writes. */
  datatype Workload = Workload(specReplicas: nat, availableReplicas: nat,
                               generation: int, observedGeneration: int)

  /** Objects of one kind in the cluster, by namespace and name. */
  type Store = map<NamespacedName, Workload>

  /** `task`; `creationTimestamp` is in nanoseconds. */
  datatype Task = Task(id: Migration.Uid, creationTimestamp: int,
                       src: ResourceRef, dst: ResourceRef, opts: Migration.Options,
                       srcUpdatedGeneration: int, dstUpdatedGeneration: int,
                       result: Migration.Result)

  const NanosPerSecond := 1_000_000_000

  /** The error an API write reports when the server rejects it. */
  const UpdateRejected := "the object has been modified; please apply your changes to the latest version and try again"

  // ------------------------------------------------------------------ task invariant

  /** Submit always fills in Replicas and MaxSurge before storing a task. */
  predicate Resolved(t: Task) { t.opts.replicas.Some? && t.opts.maxSurge.Some? }

  function Replicas(t: Task): int requires Resolved(t) { t.opts.replicas.value }
  function MaxSurge(t: Task): int requires Resolved(t) { t.opts.maxSurge.value }
  function Src(t: Task): int { t.result.srcMigratedReplicas }
  function Dst(t: Task): int { t.result.dstMigratedReplicas }

  /** The safety property of a migration: 0 <= Src <= Dst <= Replicas and at most
      MaxSurge pods migrated to the CloneSet but not yet removed from the Deployment. */
  predicate Bounded(t: Task)
  {
    Resolved(t) && MaxSurge(t) >= 1
    && 0 <= Src(t) <= Dst(t) <= Replicas(t)
    && Dst(t) - Src(t) <= MaxSurge(t)
  }

  // ------------------------------------------------------------------ submit checks

  function GetDeploymentAndCloneSetObjects(deployments: Store, cloneSets: Store,
                                           src: ResourceRef, dst: ResourceRef): (r: Result<(Workload, Workload)>)
    ensures r.Ok? <==> src.GetNamespacedName() in deployments && dst.GetNamespacedName() in cloneSets
    ensures r.Ok? ==> r.value == (deployments[src.GetNamespacedName()], cloneSets[dst.GetNamespacedName()])
  {
    if src.GetNamespacedName() !in deployments then Err("failed to get &" + src.Text() + ": not found")
    else if dst.GetNamespacedName() !in cloneSets then Err("failed to get &" + dst.Text() + ": not found")
    else Ok((deployments[src.GetNamespacedName()], cloneSets[dst.GetNamespacedName()]))
  }

  /** What Submit stores for an accepted request: the defaulted options and the
      generations read from the two objects. */
  datatype Prepared = Prepared(opts: Migration.Options, srcGeneration: int, dstGeneration: int)

  /** The checks and defaults of Submit, in the order the source applies them, up to
      the registration of event handlers. */
  function ValidateSubmit(src: ResourceRef, dst: ResourceRef, opts: Migration.Options,
                          deployments: Store, cloneSets: Store,
                          executingTasks: map<ResourceRef, Migration.Uid>): (r: Result<Prepared>)
    ensures opts.replicas.Some? && opts.replicas.value <= 0 ==> r.Err?
    ensures src.GetGroupVersionKind() != DeploymentKind || dst.GetGroupVersionKind() != CloneSetKind ==> r.Err?
    ensures src in executingTasks || dst in executingTasks ==> r.Err?
    ensures r.Ok? <==>
      (opts.replicas.None? || opts.replicas.value > 0)
      && src.GetGroupVersionKind() == DeploymentKind && dst.GetGroupVersionKind() == CloneSetKind
      && src.GetNamespacedName() in deployments && dst.GetNamespacedName() in cloneSets
      && opts.maxSurge.GetOr(1) > 0
      && src !in executingTasks && dst !in executingTasks
    ensures r.Ok? ==>
      var d := deployments[src.GetNamespacedName()];
      var c := cloneSets[dst.GetNamespacedName()];
      && r.value.opts.replicas == Some(opts.replicas.GetOr(d.specReplicas))
      && r.value.opts.maxSurge == Some(opts.maxSurge.GetOr(1))
      && r.value.opts.timeoutSeconds == opts.timeoutSeconds
      && r.value.srcGeneration == d.generation && r.value.dstGeneration == c.generation
  {
    if opts.replicas.Some? && opts.replicas.value <= 0 then
      Err("invalid replicas " + IntToString(opts.replicas.value))
    else if src.GetGroupVersionKind() != DeploymentKind then
      Err("invalid src type, currently only support " + GroupVersionKindString(DeploymentKind))
    else if dst.GetGroupVersionKind() != CloneSetKind then
      Err("invalid dst type, must be " + GroupVersionKindString(CloneSetKind))
    else match GetDeploymentAndCloneSetObjects(deployments, cloneSets, src, dst)
      case Err(e) => Err(e)
      case Ok((d, c)) =>
        var replicas := if opts.replicas.None? then Some(d.specReplicas as int) else opts.replicas;
        var maxSurge := if opts.maxSurge.None? then Some(1) else opts.maxSurge;
        if maxSurge.value <= 0 then Err("maxSurge must be integar more than zore")
        else if src in executingTasks then Err("already existing migration task for " + src.Text())
        else if dst in executingTasks then Err("already existing migration task for " + dst.Text())
        else Ok(Prepared(Migration.Options(replicas, maxSurge, opts.timeoutSeconds), d.generation, c.generation))
  }

  /** An invalid Replicas option or a wrong kind is reported before anything is read:
      the answer is the same whatever the cluster holds and whatever tasks run. */
  lemma SubmitRejectsBeforeReading(src: ResourceRef, dst: ResourceRef, opts: Migration.Options,
                                   d1: Store, c1: Store, e1: map<ResourceRef, Migration.Uid>,
                                   d2: Store, c2: Store, e2: map<ResourceRef, Migration.Uid>)
    requires (opts.replicas.Some? && opts.replicas.value <= 0)
             || src.GetGroupVersionKind() != DeploymentKind || dst.GetGroupVersionKind() != CloneSetKind
    ensures ValidateSubmit(src, dst, opts, d1, c1, e1) == ValidateSubmit(src, dst, opts, d2, c2, e2)
  {
  }

  /** The task Submit stores for an accepted request. */
  function NewTask(id: Migration.Uid, now: int, src: ResourceRef, dst: ResourceRef, p: Prepared): Task
  {
    Task(id, now, src, dst, p.opts, p.srcGeneration, p.dstGeneration,
         Migration.Result(id, Migration.MigrateExecuting, "", 0, 0))
  }

  /** A freshly submitted task satisfies the safety property. */
  lemma NewTaskBounded(src: ResourceRef, dst: ResourceRef, opts: Migration.Options,
                       deployments: Store, cloneSets: Store, executingTasks: map<ResourceRef, Migration.Uid>,
                       id: Migration.Uid, now: int)
    requires ValidateSubmit(src, dst, opts, deployments, cloneSets, executingTasks).Ok?
    ensures var t := NewTask(id, now, src, dst, ValidateSubmit(src, dst, opts, deployments, cloneSets, executingTasks).value);
      Bounded(t) && Kinds(t)
  {
    assert src.GetGroupVersionKind().kind == src.kind;
  }

  // ------------------------------------------------------------------ one reconcile step

  /** The only replica write a step may perform. */
  datatype Write = NoWrite
                 | WriteDeployment(key: NamespacedName, obj: Workload)
                 | WriteCloneSet(key: NamespacedName, obj: Workload)

  datatype StepOutcome = StepOutcome(task: Task, write: Write, err: Option<string>)

  /** The record change of `finishTask`. */
  function Finish(t: Task, state: Migration.MigrateState, message: string): Task
  {
    t.(result := t.result.(state := state, message := message))
  }

  /** `updateTask`: both counters grow by the given amounts. */
  function UpdateTask(t: Task, srcDelta: int, dstDelta: int): Task
  {
    t.(result := t.result.(srcMigratedReplicas := Src(t) + srcDelta, dstMigratedReplicas := Dst(t) + dstDelta))
  }

  predicate TimedOut(t: Task, now: int)
  {
    t.opts.timeoutSeconds.Some? && now - t.creationTimestamp > t.opts.timeoutSeconds.value * NanosPerSecond
  }

  /** A write accepted by the API server: the spec changed, so the generation moves on. */
  function Written(w: Workload, specReplicas: nat): Workload
  {
    w.(specReplicas := specReplicas, generation := w.generation + 1)
  }

  /** What one `reconcile` of task `t` does at time `now`, given the cluster;
      `updateFails` says whether the API server rejects the step's write. */
  function ReconcileStep(t: Task, now: int, deployments: Store, cloneSets: Store, updateFails: bool): StepOutcome
    requires Resolved(t)
  {
    if !t.result.state.MigrateExecuting? then StepOutcome(t, NoWrite, None)
    else if Dst(t) == Replicas(t) && Src(t) == Replicas(t) then
      StepOutcome(Finish(t, Migration.MigrateSucceeded, ""), NoWrite, None)
    else if TimedOut(t, now) then
      StepOutcome(Finish(t, Migration.MigrateFailed, "task timeout exceeded"), NoWrite, None)
    else match GetDeploymentAndCloneSetObjects(deployments, cloneSets, t.src, t.dst)
      case Err(e) => StepOutcome(Finish(t, Migration.MigrateFailed, e), NoWrite, None)
      case Ok((d, c)) =>
        if d.generation < t.srcUpdatedGeneration || c.generation < t.dstUpdatedGeneration then
          StepOutcome(t, NoWrite, None)
        else if d.generation != d.observedGeneration || c.generation != c.observedGeneration then
          StepOutcome(t, NoWrite, None)
        else ScaleStep(t, d, c, updateFails)
  }

  /** The scale-out or scale-in part of a step, on synchronised objects. */
  function ScaleStep(t: Task, d: Workload, c: Workload, updateFails: bool): StepOutcome
    requires Resolved(t)
  {
    var maxScaleOut := Utils.Int32Min(MaxSurge(t) - (Dst(t) - Src(t)), [Replicas(t) - Dst(t)]);
    if Dst(t) < Replicas(t) && maxScaleOut > 0 then
      if updateFails then StepOutcome(t, NoWrite, Some(UpdateRejected))
      else
        var c' := Written(c, c.specReplicas + maxScaleOut);
        StepOutcome(UpdateTask(t.(dstUpdatedGeneration := c'.generation), 0, maxScaleOut),
                    WriteCloneSet(t.dst.GetNamespacedName(), c'), None)
    else if Src(t) < Replicas(t) then
      var maxScaleIn := Utils.Int32Min(d.specReplicas, [Replicas(t) - Src(t), Dst(t) - Src(t)]);
      if maxScaleIn > 0 && c.specReplicas == c.availableReplicas then
        if updateFails then StepOutcome(t, NoWrite, Some(UpdateRejected))
        else
          var d' := Written(d, d.specReplicas - maxScaleIn);
          StepOutcome(UpdateTask(t.(srcUpdatedGeneration := d'.generation), maxScaleIn, 0),
                      WriteDeployment(t.src.GetNamespacedName(), d'), None)
      else StepOutcome(t, NoWrite, None)
    else StepOutcome(t, NoWrite, None)
  }

  /** The scale part of a step keeps the bounded-surge property. */
  lemma ScaleKeepsBounded(t: Task, d: Workload, c: Workload, updateFails: bool)
    requires Bounded(t)
    ensures var o := ScaleStep(t, d, c, updateFails);
      && Bounded(o.task) && o.task.id == t.id && o.task.src == t.src && o.task.dst == t.dst
      && o.task.result.id == t.result.id && o.task.result.state == t.result.state
  {
    var o := ScaleStep(t, d, c, updateFails);
    if o.write.WriteCloneSet? {
      var out := Utils.Int32Min(MaxSurge(t) - (Dst(t) - Src(t)), [Replicas(t) - Dst(t)]);
      assert Dst(o.task) == Dst(t) + out && Src(o.task) == Src(t);
    } else if o.write.WriteDeployment? {
      var n := Utils.Int32Min(d.specReplicas, [Replicas(t) - Src(t), Dst(t) - Src(t)]);
      assert Src(o.task) == Src(t) + n && Dst(o.task) == Dst(t);
    }
  }

  /** Every step keeps the bounded-surge property. */
  lemma StepKeepsBounded(t: Task, now: int, deployments: Store, cloneSets: Store, updateFails: bool)
    requires Bounded(t)
    ensures Bounded(ReconcileStep(t, now, deployments, cloneSets, updateFails).task)
  {
    if t.src.GetNamespacedName() in deployments && t.dst.GetNamespacedName() in cloneSets {
      ScaleKeepsBounded(t, deployments[t.src.GetNamespacedName()], cloneSets[t.dst.GetNamespacedName()], updateFails);
    }
  }

  /** A step never changes what the task is about, never lowers a counter, and leaves
      a finished task alone; a task leaves Executing only through a terminal state. */
  lemma StepMonotone(t: Task, now: int, deployments: Store, cloneSets: Store, updateFails: bool)
    requires Bounded(t)
    ensures var o := ReconcileStep(t, now, deployments, cloneSets, updateFails);
      && o.task.id == t.id && o.task.src == t.src && o.task.dst == t.dst && o.task.opts == t.opts
      && o.task.creationTimestamp == t.creationTimestamp && o.task.result.id == t.result.id
      && Src(o.task) >= Src(t) && Dst(o.task) >= Dst(t)
      && (!t.result.state.MigrateExecuting? ==> o == StepOutcome(t, NoWrite, None))
      && (o.task.result.state != t.result.state ==>
            t.result.state.MigrateExecuting? && !o.task.result.state.MigrateExecuting?)
  {
    StepKeepsBounded(t, now, deployments, cloneSets, updateFails);
    var o := ReconcileStep(t, now, deployments, cloneSets, updateFails);
    if o.write.WriteCloneSet? {
      var out := Utils.Int32Min(MaxSurge(t) - (Dst(t) - Src(t)), [Replicas(t) - Dst(t)]);
      assert Dst(o.task) == Dst(t) + out;
    } else if o.write.WriteDeployment? {
      var d := deployments[t.src.GetNamespacedName()];
      var n := Utils.Int32Min(d.specReplicas, [Replicas(t) - Src(t), Dst(t) - Src(t)]);
      assert Src(o.task) == Src(t) + n;
    }
  }

  /** At most one replica write per step, and it is exactly the change of one counter:
      a CloneSet write adds to Dst what it adds to the CloneSet's replicas; a Deployment
      write adds to Src what it removes from the Deployment's replicas, and is made only
      when every CloneSet replica is available. Without a write the counters stay. */
  lemma StepWriteMatchesCounters(t: Task, now: int, deployments: Store, cloneSets: Store, updateFails: bool)
    requires Bounded(t)
    ensures var o := ReconcileStep(t, now, deployments, cloneSets, updateFails);
      && (o.write.NoWrite? ==> Src(o.task) == Src(t) && Dst(o.task) == Dst(t))
      && (!o.write.NoWrite? ==> o.err.None? && !updateFails && o.task.result.state.MigrateExecuting?)
      && (o.write.WriteCloneSet? ==>
            && o.write.key == t.dst.GetNamespacedName() && o.write.key in cloneSets
            && Src(o.task) == Src(t) && Dst(o.task) > Dst(t)
            && o.write.obj.specReplicas == cloneSets[o.write.key].specReplicas + (Dst(o.task) - Dst(t))
            && o.task.dstUpdatedGeneration == o.write.obj.generation)
      && (o.write.WriteDeployment? ==>
            && o.write.key == t.src.GetNamespacedName() && o.write.key in deployments
            && Dst(o.task) == Dst(t) && Src(o.task) > Src(t)
            && o.write.obj.specReplicas == deployments[o.write.key].specReplicas - (Src(o.task) - Src(t))
            && o.task.srcUpdatedGeneration == o.write.obj.generation
            && t.dst.GetNamespacedName() in cloneSets
            && cloneSets[t.dst.GetNamespacedName()].specReplicas == cloneSets[t.dst.GetNamespacedName()].availableReplicas)
  {
  }

  /** While either object's cache copy is older than the last write, or its controller
      has not observed its latest generation, a step writes nothing and changes nothing. */
  lemma StepWaitsForSync(t: Task, now: int, deployments: Store, cloneSets: Store, updateFails: bool)
    requires Bounded(t) && t.result.state.MigrateExecuting?
    requires !(Dst(t) == Replicas(t) && Src(t) == Replicas(t)) && !TimedOut(t, now)
    requires t.src.GetNamespacedName() in deployments && t.dst.GetNamespacedName() in cloneSets
    requires var d := deployments[t.src.GetNamespacedName()];
             var c := cloneSets[t.dst.GetNamespacedName()];
             d.generation < t.srcUpdatedGeneration || c.generation < t.dstUpdatedGeneration
             || d.generation != d.observedGeneration || c.generation != c.observedGeneration
    ensures ReconcileStep(t, now, deployments, cloneSets, updateFails) == StepOutcome(t, NoWrite, None)
  {
  }

  /** A step on synchronised objects always makes progress when nothing outside gets in
      the way: the Deployment still has the pods left to migrate, every CloneSet pod is
      available, the write is accepted and there is time left. Then the step either
      finishes the task as Succeeded or strictly raises one counter. */
  lemma {:induction false} StepProgress(t: Task, now: int, deployments: Store, cloneSets: Store)
    requires Bounded(t) && t.result.state.MigrateExecuting? && !TimedOut(t, now)
    requires t.src.GetNamespacedName() in deployments && t.dst.GetNamespacedName() in cloneSets
    requires var d := deployments[t.src.GetNamespacedName()];
             var c := cloneSets[t.dst.GetNamespacedName()];
             && t.srcUpdatedGeneration <= d.generation == d.observedGeneration
             && t.dstUpdatedGeneration <= c.generation == c.observedGeneration
             && d.specReplicas >= Replicas(t) - Src(t)
             && c.specReplicas == c.availableReplicas
    ensures var o := ReconcileStep(t, now, deployments, cloneSets, false);
      || o.task.result.state.MigrateSucceeded?
      || Src(o.task) + Dst(o.task) > Src(t) + Dst(t)
  {
    var o := ReconcileStep(t, now, deployments, cloneSets, false);
    if !(Dst(t) == Replicas(t) && Src(t) == Replicas(t)) {
      var d := deployments[t.src.GetNamespacedName()];
      var c := cloneSets[t.dst.GetNamespacedName()];
      assert o == ScaleStep(t, d, c, false);
      var out := Utils.Int32Min(MaxSurge(t) - (Dst(t) - Src(t)), [Replicas(t) - Dst(t)]);
      if Dst(t) < Replicas(t) && out > 0 {
        assert Dst(o.task) == Dst(t) + out;
      } else {
        assert Src(t) < Replicas(t);
        var n := Utils.Int32Min(d.specReplicas, [Replicas(t) - Src(t), Dst(t) - Src(t)]);
        assert Dst(t) - Src(t) > 0;
        assert n > 0;
        assert Src(o.task) == Src(t) + n;
      }
    }
  }

  // ------------------------------------------------------------------ the controller state

  /** The source of a task is a Deployment and its destination a CloneSet (so the two
      references differ). */
  predicate Kinds(t: Task)
  {
    t.src.kind == DeploymentKind.kind && t.dst.kind == CloneSetKind.kind
  }

  /** Task `t` owns the reference `r`. */
  predicate Owns(t: Task, r: ResourceRef) { t.src == r || t.dst == r }

  /** Both references of `t` are indexed to it. */
  predicate Registered(executingTasks: map<ResourceRef, Migration.Uid>, t: Task)
  {
    t.src in executingTasks && executingTasks[t.src] == t.id
    && t.dst in executingTasks && executingTasks[t.dst] == t.id
  }

  /** The invariant of `control`: every task is stored under its own ID, which is below
      the next fresh ID, and is bounded; `executingTasks` indexes exactly the references
      of the Executing tasks; the queue holds only IDs of stored tasks. */
  predicate ValidState(tasks: map<Migration.Uid, Task>, executingTasks: map<ResourceRef, Migration.Uid>,
                       queue: set<Migration.Uid>, nextId: nat)
  {
    && (forall id :: id in tasks ==>
          tasks[id].id == id && tasks[id].result.id == id && id < nextId
          && Bounded(tasks[id]) && Kinds(tasks[id]))
    && (forall r :: r in executingTasks ==>
          executingTasks[r] in tasks && Owns(tasks[executingTasks[r]], r)
          && tasks[executingTasks[r]].result.state.MigrateExecuting?)
    && (forall id :: id in tasks && tasks[id].result.state.MigrateExecuting? ==>
          Registered(executingTasks, tasks[id]))
    && queue <= tasks.Keys
  }

  /** The invariant does not depend on which of the known tasks are queued. */
  lemma ValidStateRequeue(tasks: map<Migration.Uid, Task>, executingTasks: map<ResourceRef, Migration.Uid>,
                          queue: set<Migration.Uid>, queue': set<Migration.Uid>, nextId: nat)
    requires ValidState(tasks, executingTasks, queue, nextId) && queue' <= tasks.Keys
    ensures ValidState(tasks, executingTasks, queue', nextId)
  {
  }

  /** Exclusivity: two different Executing tasks never share a Deployment or a CloneSet. */
  lemma Exclusive(tasks: map<Migration.Uid, Task>, executingTasks: map<ResourceRef, Migration.Uid>,
                  queue: set<Migration.Uid>, nextId: nat, a: Migration.Uid, b: Migration.Uid)
    requires ValidState(tasks, executingTasks, queue, nextId)
    requires a in tasks && b in tasks && a != b
    requires tasks[a].result.state.MigrateExecuting? && tasks[b].result.state.MigrateExecuting?
    ensures !Owns(tasks[b], tasks[a].src) && !Owns(tasks[b], tasks[a].dst)
  {
    assert Registered(executingTasks, tasks[a]) && Registered(executingTasks, tasks[b]);
  }

  /** Replacing a task by one with the same identity, objects and state, that is still
      bounded, keeps the controller invariant. */
  lemma ReplaceKeepsValid(tasks: map<Migration.Uid, Task>, executingTasks: map<ResourceRef, Migration.Uid>,
                          queue: set<Migration.Uid>, nextId: nat, id: Migration.Uid, t: Task)
    requires ValidState(tasks, executingTasks, queue, nextId) && id in tasks
    requires t.id == id && t.result.id == id && t.src == tasks[id].src && t.dst == tasks[id].dst
    requires t.result.state == tasks[id].result.state && Bounded(t)
    ensures ValidState(tasks[id := t], executingTasks, queue, nextId)
  {
    var tasks' := tasks[id := t];
    forall r | r in executingTasks
      ensures executingTasks[r] in tasks' && Owns(tasks'[executingTasks[r]], r)
              && tasks'[executingTasks[r]].result.state.MigrateExecuting?
    {
    }
  }

  /** Registering a new bounded Executing task under a fresh ID, on objects no other
      task holds, keeps the controller invariant. */
  lemma RegisterKeepsValid(tasks: map<Migration.Uid, Task>, executingTasks: map<ResourceRef, Migration.Uid>,
                           queue: set<Migration.Uid>, nextId: nat, t: Task)
    requires ValidState(tasks, executingTasks, queue, nextId)
    requires t.id == nextId && t.result.id == nextId && Bounded(t) && Kinds(t)
    requires t.result.state.MigrateExecuting?
    requires t.src !in executingTasks && t.dst !in executingTasks
    ensures ValidState(tasks[t.id := t], executingTasks[t.src := t.id][t.dst := t.id], queue + {t.id}, nextId + 1)
  {
    var tasks' := tasks[t.id := t];
    var ex' := executingTasks[t.src := t.id][t.dst := t.id];
    assert t.id !in tasks;
    forall u | u in tasks' && tasks'[u].result.state.MigrateExecuting?
      ensures Registered(ex', tasks'[u])
    {
      if u != t.id {
        assert Registered(executingTasks, tasks[u]);
      }
    }
  }

  /** `control`: the task store, the exclusivity index, the work queue (a set: the
      queue never holds an ID twice), the kinds whose informers carry handlers, and the
      Deployments and CloneSets of the cluster. IDs come from a counter, so each is fresh. */
  class Control {
    var tasks: map<Migration.Uid, Task>
    var executingTasks: map<ResourceRef, Migration.Uid>
    var handledGVKs: set<GroupVersionKind>
    var queue: set<Migration.Uid>
    var nextId: nat
    var deployments: Store
    var cloneSets: Store

    ghost predicate Valid()
      reads this`tasks, this`executingTasks, this`queue, this`nextId
    {
      ValidState(tasks, executingTasks, queue, nextId)
    }

    /** `NewControl`, over the given cluster. */
    constructor (deployments: Store, cloneSets: Store)
      ensures Valid()
      ensures tasks == map[] && executingTasks == map[] && handledGVKs == {} && queue == {}
      ensures this.deployments == deployments && this.cloneSets == cloneSets
    {
      tasks := map[];
      executingTasks := map[];
      handledGVKs := {};
      queue := {};
      nextId := 0;
      this.deployments := deployments;
      this.cloneSets := cloneSets;
    }

    /** `addEventHandler`: fetch the informer of a kind not yet handled and attach the
        handler for that kind. `unavailable` are the kinds whose informer cannot be had. */
    method AddEventHandler(gvk: GroupVersionKind, unavailable: set<GroupVersionKind>) returns (err: Option<string>)
      modifies this`handledGVKs
      ensures err.None? <==> gvk in old(handledGVKs) || (gvk !in unavailable && gvk in {DeploymentKind, CloneSetKind})
      ensures handledGVKs == if err.None? then old(handledGVKs) + {gvk} else old(handledGVKs)
    {
      if gvk !in handledGVKs {
        if gvk in unavailable {
          return Some("failed to get informer for " + GroupVersionKindString(gvk));
        }
        if gvk != DeploymentKind && gvk != CloneSetKind {
          return Some("unsupported gvk " + GroupVersionKindString(gvk));
        }
        handledGVKs := handledGVKs + {gvk};
      }
      return None;
    }

    /** `Submit`: validate, default, reject a second task on the same objects, register
        the handlers, then store, index and enqueue a new Executing task. */
    method Submit(src: ResourceRef, dst: ResourceRef, opts: Migration.Options, now: int,
                  unavailable: set<GroupVersionKind>) returns (r: Result<Migration.Result>)
      requires Valid()
      modifies this`tasks, this`executingTasks, this`queue, this`nextId, this`handledGVKs
      ensures Valid()
      ensures var v := ValidateSubmit(src, dst, opts, old(deployments), old(cloneSets), old(executingTasks));
        && (v.Err? ==> r == Err(v.error) && handledGVKs == old(handledGVKs))
        && (v.Ok? && DeploymentKind !in old(handledGVKs) && DeploymentKind in unavailable ==>
              r.Err? && handledGVKs == old(handledGVKs))
        && (v.Ok? && (DeploymentKind in old(handledGVKs) || DeploymentKind !in unavailable)
              && CloneSetKind !in old(handledGVKs) && CloneSetKind in unavailable ==>
              r.Err? && handledGVKs == old(handledGVKs) + {DeploymentKind})
        && (r.Ok? <==> v.Ok? && (DeploymentKind in old(handledGVKs) || DeploymentKind !in unavailable)
                             && (CloneSetKind in old(handledGVKs) || CloneSetKind !in unavailable))
        && (r.Err? ==> tasks == old(tasks) && executingTasks == old(executingTasks)
                       && queue == old(queue) && nextId == old(nextId))
        && (r.Ok? ==>
              var id := old(nextId);
              && r.value == Migration.Result(id, Migration.MigrateExecuting, "", 0, 0)
              && id !in old(tasks)
              && tasks == old(tasks)[id := NewTask(id, now, src, dst, v.value)]
              && executingTasks == old(executingTasks)[src := id][dst := id]
              && queue == old(queue) + {id}
              && nextId == id + 1
              && handledGVKs == old(handledGVKs) + {DeploymentKind, CloneSetKind})
    {
      var v := ValidateSubmit(src, dst, opts, deployments, cloneSets, executingTasks);
      if v.Err? {
        return Err(v.error);
      }
      var err := AddEventHandler(src.GetGroupVersionKind(), unavailable);
      if err.Some? {
        return Err(err.value);
      }
      err := AddEventHandler(dst.GetGroupVersionKind(), unavailable);
      if err.Some? {
        return Err(err.value);
      }

      NewTaskBounded(src, dst, opts, deployments, cloneSets, executingTasks, nextId, now);
      var t := NewTask(nextId, now, src, dst, v.value);
      Register(t);
      return Ok(t.result);
    }

    /** Store a new task under the next ID, index it under both objects and enqueue it once. */
    method Register(t: Task)
      requires Valid()
      requires t.id == nextId && t.result.id == nextId && Bounded(t) && Kinds(t)
      requires t.result.state.MigrateExecuting?
      requires t.src !in executingTasks && t.dst !in executingTasks
      modifies this`tasks, this`executingTasks, this`queue, this`nextId
      ensures Valid()
      ensures t.id !in old(tasks)
      ensures tasks == old(tasks)[t.id := t]
      ensures executingTasks == old(executingTasks)[t.src := t.id][t.dst := t.id]
      ensures queue == old(queue) + {t.id} && nextId == old(nextId) + 1
    {
      RegisterKeepsValid(tasks, executingTasks, queue, nextId, t);
      tasks := tasks[t.id := t];
      executingTasks := executingTasks[t.src := t.id][t.dst := t.id];
      queue := queue + {t.id};
      nextId := nextId + 1;
    }

    /** `Query`: the stored result of a task, terminal or not. */
    method Query(id: Migration.Uid) returns (r: Result<Migration.Result>)
      ensures r.Ok? <==> id in tasks
      ensures r.Ok? ==> r.value == tasks[id].result
      ensures r.Err? ==> r.error == "not found ID " + NatToString(id)
    {
      if id !in tasks {
        return Err("not found ID " + NatToString(id));
      }
      return Ok(tasks[id].result);
    }

    /** `finishTask`: record the terminal state and message, and release both objects. */
    method FinishTask(id: Migration.Uid, state: Migration.MigrateState, message: string)
      requires Valid() && id in tasks && tasks[id].result.state.MigrateExecuting?
      requires !state.MigrateExecuting?
      modifies this`tasks, this`executingTasks
      ensures Valid()
      ensures tasks == old(tasks)[id := Finish(old(tasks)[id], state, message)]
      ensures executingTasks == old(executingTasks) - {old(tasks)[id].src, old(tasks)[id].dst}
    {
      var t := tasks[id];
      tasks := tasks[id := Finish(t, state, message)];
      executingTasks := executingTasks - {t.src, t.dst};
      forall r | r in executingTasks
        ensures executingTasks[r] in tasks && Owns(tasks[executingTasks[r]], r)
                && tasks[executingTasks[r]].result.state.MigrateExecuting?
      {
        assert executingTasks[r] != id;
      }
      forall u | u in tasks && tasks[u].result.state.MigrateExecuting?
        ensures Registered(executingTasks, tasks[u])
      {
        assert u != id;
        assert Registered(old(executingTasks), old(tasks)[u]);
        assert !Owns(t, tasks[u].src) && !Owns(t, tasks[u].dst);
      }
    }

    /** The CloneSet write of a scale-out; the server bumps the generation. */
    method UpdateCloneSet(key: NamespacedName, specReplicas: nat, updateFails: bool)
      returns (err: Option<string>, generation: int)
      requires key in cloneSets
      modifies this`cloneSets
      ensures err == if updateFails then Some(UpdateRejected) else None
      ensures err.Some? ==> cloneSets == old(cloneSets)
      ensures err.None? ==> cloneSets == old(cloneSets)[key := Written(old(cloneSets)[key], specReplicas)]
                            && generation == cloneSets[key].generation
    {
      if updateFails {
        return Some(UpdateRejected), 0;
      }
      var w := Written(cloneSets[key], specReplicas);
      cloneSets := cloneSets[key := w];
      return None, w.generation;
    }

    /** The Deployment write of a scale-in; the server bumps the generation. */
    method UpdateDeployment(key: NamespacedName, specReplicas: nat, updateFails: bool)
      returns (err: Option<string>, generation: int)
      requires key in deployments
      modifies this`deployments
      ensures err == if updateFails then Some(UpdateRejected) else None
      ensures err.Some? ==> deployments == old(deployments)
      ensures err.None? ==> deployments == old(deployments)[key := Written(old(deployments)[key], specReplicas)]
                            && generation == deployments[key].generation
    {
      if updateFails {
        return Some(UpdateRejected), 0;
      }
      var w := Written(deployments[key], specReplicas);
      deployments := deployments[key := w];
      return None, w.generation;
    }

    /** `reconcile`, as one atomic step. The source dereferences the task without a nil
        check, so the ID must be stored; the queue only ever holds stored IDs. */
    method Reconcile(id: Migration.Uid, now: int, updateFails: bool) returns (err: Option<string>)
      requires Valid() && id in tasks
      modifies this`tasks, this`executingTasks, this`deployments, this`cloneSets
      ensures Valid()
      ensures var t := old(tasks)[id];
        var o := ReconcileStep(t, now, old(deployments), old(cloneSets), updateFails);
        && err == o.err
        && tasks == old(tasks)[id := o.task]
        && deployments == (if o.write.WriteDeployment? then old(deployments)[o.write.key := o.write.obj] else old(deployments))
        && cloneSets == (if o.write.WriteCloneSet? then old(cloneSets)[o.write.key := o.write.obj] else old(cloneSets))
        && executingTasks == (if o.task.result.state != t.result.state
                              then old(executingTasks) - {t.src, t.dst} else old(executingTasks))
    {
      var task := tasks[id];
      var replicas := task.opts.replicas.value;
      if !task.result.state.MigrateExecuting? {
        return None;
      } else if Dst(task) == replicas && Src(task) == replicas {
        FinishTask(id, Migration.MigrateSucceeded, "");
        return None;
      } else if task.opts.timeoutSeconds.Some?
                && now - task.creationTimestamp > task.opts.timeoutSeconds.value * NanosPerSecond {
        FinishTask(id, Migration.MigrateFailed, "task timeout exceeded");
        return None;
      }

      var objs := GetDeploymentAndCloneSetObjects(deployments, cloneSets, task.src, task.dst);
      if objs.Err? {
        FinishTask(id, Migration.MigrateFailed, objs.error);
        return None;
      }
      var (srcDeployment, dstCloneSet) := objs.value;

      if srcDeployment.generation < task.srcUpdatedGeneration || dstCloneSet.generation < task.dstUpdatedGeneration {
        return None;  // the cache has not seen the last write yet
      } else if srcDeployment.generation != srcDeployment.observedGeneration
                || dstCloneSet.generation != dstCloneSet.observedGeneration {
        return None;  // a workload controller has not reconciled yet
      }
      err := ScaleTask(id, srcDeployment, dstCloneSet, updateFails);
    }

    /** The scale-out or scale-in part of `reconcile`, on synchronised objects. */
    method ScaleTask(id: Migration.Uid, srcDeployment: Workload, dstCloneSet: Workload, updateFails: bool)
      returns (err: Option<string>)
      requires Valid() && id in tasks
      requires tasks[id].src.GetNamespacedName() in deployments
      requires deployments[tasks[id].src.GetNamespacedName()] == srcDeployment
      requires tasks[id].dst.GetNamespacedName() in cloneSets
      requires cloneSets[tasks[id].dst.GetNamespacedName()] == dstCloneSet
      modifies this`tasks, this`deployments, this`cloneSets
      ensures Valid()
      ensures var o := ScaleStep(old(tasks)[id], srcDeployment, dstCloneSet, updateFails);
        && err == o.err
        && tasks == old(tasks)[id := o.task]
        && deployments == (if o.write.WriteDeployment? then old(deployments)[o.write.key := o.write.obj] else old(deployments))
        && cloneSets == (if o.write.WriteCloneSet? then old(cloneSets)[o.write.key := o.write.obj] else old(cloneSets))
    {
      var task := tasks[id];
      var replicas := task.opts.replicas.value;
      if Dst(task) < replicas {
        var deltaSurge := task.opts.maxSurge.value - (Dst(task) - Src(task));
        var deltaReplicas := replicas - Dst(task);
        var maxScaleOut := Utils.Int32Min(deltaSurge, [deltaReplicas]);
        if maxScaleOut > 0 {
          err := ScaleOut(id, srcDeployment, dstCloneSet, maxScaleOut, updateFails);
          return;
        }
      }
      err := ScaleIn(id, srcDeployment, dstCloneSet, updateFails);
    }

    /** Scale-out: the CloneSet grows by `maxScaleOut` and the task records it. */
    method ScaleOut(id: Migration.Uid, srcDeployment: Workload, dstCloneSet: Workload, maxScaleOut: int, updateFails: bool)
      returns (err: Option<string>)
      requires Valid() && id in tasks
      requires tasks[id].src.GetNamespacedName() in deployments
      requires deployments[tasks[id].src.GetNamespacedName()] == srcDeployment
      requires tasks[id].dst.GetNamespacedName() in cloneSets
      requires cloneSets[tasks[id].dst.GetNamespacedName()] == dstCloneSet
      requires Dst(tasks[id]) < Replicas(tasks[id]) && maxScaleOut > 0
      requires maxScaleOut == Utils.Int32Min(MaxSurge(tasks[id]) - (Dst(tasks[id]) - Src(tasks[id])), [Replicas(tasks[id]) - Dst(tasks[id])])
      modifies this`tasks, this`deployments, this`cloneSets
      ensures Valid()
      ensures var o := ScaleStep(old(tasks)[id], srcDeployment, dstCloneSet, updateFails);
        && err == o.err
        && tasks == old(tasks)[id := o.task]
        && deployments == (if o.write.WriteDeployment? then old(deployments)[o.write.key := o.write.obj] else old(deployments))
        && cloneSets == (if o.write.WriteCloneSet? then old(cloneSets)[o.write.key := o.write.obj] else old(cloneSets))
    {
      var task := tasks[id];
      ghost var o := ScaleStep(task, srcDeployment, dstCloneSet, updateFails);
      ScaleKeepsBounded(task, srcDeployment, dstCloneSet, updateFails);
      ReplaceKeepsValid(tasks, executingTasks, queue, nextId, id, o.task);
      var generation;
      err, generation := UpdateCloneSet(task.dst.GetNamespacedName(), dstCloneSet.specReplicas + maxScaleOut, updateFails);
      if err.Some? {
        assert o == StepOutcome(task, NoWrite, Some(UpdateRejected));
        return err;
      }
      task := task.(dstUpdatedGeneration := generation);
      task := UpdateTask(task, 0, maxScaleOut);
      assert o.task == task && o.write == WriteCloneSet(task.dst.GetNamespacedName(), cloneSets[task.dst.GetNamespacedName()]);
      tasks := tasks[id := task];
    }

    /** Scale-in, when no scale-out is due: the Deployment shrinks once the CloneSet's
        replicas are all available, and the task records it. */
    method ScaleIn(id: Migration.Uid, srcDeployment: Workload, dstCloneSet: Workload, updateFails: bool)
      returns (err: Option<string>)
      requires Valid() && id in tasks
      requires tasks[id].src.GetNamespacedName() in deployments
      requires deployments[tasks[id].src.GetNamespacedName()] == srcDeployment
      requires tasks[id].dst.GetNamespacedName() in cloneSets
      requires cloneSets[tasks[id].dst.GetNamespacedName()] == dstCloneSet
      requires !(Dst(tasks[id]) < Replicas(tasks[id])
                 && Utils.Int32Min(MaxSurge(tasks[id]) - (Dst(tasks[id]) - Src(tasks[id])), [Replicas(tasks[id]) - Dst(tasks[id])]) > 0)
      modifies this`tasks, this`deployments, this`cloneSets
      ensures Valid()
      ensures var o := ScaleStep(old(tasks)[id], srcDeployment, dstCloneSet, updateFails);
        && err == o.err
        && tasks == old(tasks)[id := o.task]
        && deployments == (if o.write.WriteDeployment? then old(deployments)[o.write.key := o.write.obj] else old(deployments))
        && cloneSets == (if o.write.WriteCloneSet? then old(cloneSets)[o.write.key := o.write.obj] else old(cloneSets))
    {
      var task := tasks[id];
      ghost var o := ScaleStep(task, srcDeployment, dstCloneSet, updateFails);
      ScaleKeepsBounded(task, srcDeployment, dstCloneSet, updateFails);
      ReplaceKeepsValid(tasks, executingTasks, queue, nextId, id, o.task);
      var replicas := task.opts.replicas.value;
      if Src(task) < replicas {
        var deltaReplicas := replicas - Src(task);
        var deltaMigrated := Dst(task) - Src(task);
        var maxScaleIn := Utils.Int32Min(srcDeployment.specReplicas, [deltaReplicas, deltaMigrated]);
        if maxScaleIn > 0 && dstCloneSet.specReplicas == dstCloneSet.availableReplicas {
          var generation;
          err, generation := UpdateDeployment(task.src.GetNamespacedName(), srcDeployment.specReplicas - maxScaleIn, updateFails);
          if err.Some? {
            assert o == StepOutcome(task, NoWrite, Some(UpdateRejected));
            return err;
          }
          task := task.(srcUpdatedGeneration := generation);
          task := UpdateTask(task, maxScaleIn, 0);
          assert o.task == task && o.write == WriteDeployment(task.src.GetNamespacedName(), deployments[task.src.GetNamespacedName()]);
          tasks := tasks[id := task];
          return None;
        }
      }
      assert o == StepOutcome(task, NoWrite, None);
      return None;
    }

    /** One turn of a worker: take an ID off the queue, reconcile it, and put it back
        (rate limited) when the step returned an error. */
    method ProcessNextWorkItem(id: Migration.Uid, now: int, updateFails: bool) returns (err: Option<string>)
      requires Valid() && id in queue
      modifies this`tasks, this`executingTasks, this`deployments, this`cloneSets, this`queue
      ensures Valid()
      ensures var o := ReconcileStep(old(tasks)[id], now, old(deployments), old(cloneSets), updateFails);
        && err == o.err && tasks == old(tasks)[id := o.task]
        && queue == if err.Some? then old(queue) else old(queue) - {id}
    {
      ghost var o := ReconcileStep(tasks[id], now, deployments, cloneSets, updateFails);
      ValidStateRequeue(tasks, executingTasks, queue, queue - {id}, nextId);
      queue := queue - {id};
      err := Reconcile(id, now, updateFails);
      assert err == o.err && tasks == old(tasks)[id := o.task];
      if err.Some? {
        assert id in tasks;
        ValidStateRequeue(tasks, executingTasks, queue, queue + {id}, nextId);
        queue := queue + {id};
      }
    }
  }
}
