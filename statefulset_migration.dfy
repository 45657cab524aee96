/** The one-shot StatefulSet to Advanced StatefulSet migration
    (pkg/migration/statefulset/statefulset_migration.go): create the Advanced
    StatefulSet, then delete the StatefulSet with orphan propagation so that its pods
    stay and are adopted by the new owner, and record the task as already Succeeded. */
module StatefulSetMigration {
  import opened Wrappers
  import opened Strings
  import opened Api
  import opened Workloads
  import Migration

  /** `task`; `start` is the submission time. */
  datatype Task = Task(id: Migration.Uid, start: int, src: ResourceRef, dst: ResourceRef, result: Migration.Result)

  /** The Advanced StatefulSet the migration creates: dst's name and namespace, the
      source's labels, and the source's spec except minReadySeconds. */
  function MigratedStatefulSet(ss: StatefulSet, dst: ResourceRef): (a: StatefulSet)
    ensures a.meta == NamedMeta(dst.namespace, dst.name, ss.meta.labels)
    ensures a.spec.(minReadySeconds := ss.spec.minReadySeconds) == ss.spec
    ensures a.spec.minReadySeconds == 0
  {
    StatefulSet(NamedMeta(dst.namespace, dst.name, ss.meta.labels),
                StatefulSetSpec(ss.spec.replicas, ss.spec.serviceName, ss.spec.selector, ss.spec.template,
                                ss.spec.volumeClaimTemplates, ss.spec.updateStrategy,
                                ss.spec.podManagementPolicy, ss.spec.revisionHistoryLimit, 0))
  }

  /** The only result this control ever records. */
  function SucceededResult(id: Migration.Uid): Migration.Result
  {
    Migration.Result(id, Migration.MigrateSucceeded, "", 0, 0)
  }

  /** Every stored task is held under its own ID, drawn before `nextId`, and is Succeeded
      with both counters zero. */
  predicate ValidTasks(tasks: map<Migration.Uid, Task>, nextId: nat)
  {
    forall id :: id in tasks ==> tasks[id].id == id && id < nextId && tasks[id].result == SucceededResult(id)
  }

  /** Recording a task under the next ID keeps the task store valid and leaves every
      earlier task as it was. */
  lemma RecordKeepsValid(tasks: map<Migration.Uid, Task>, nextId: nat, t: Task)
    requires ValidTasks(tasks, nextId)
    requires t.id == nextId && t.result == SucceededResult(nextId)
    ensures nextId !in tasks
    ensures ValidTasks(tasks[nextId := t], nextId + 1)
    ensures forall id :: id in tasks ==> tasks[nextId := t][id] == tasks[id]
  {
  }

  /** `control`: the recorded tasks and the StatefulSets and Advanced StatefulSets of the
      cluster. IDs come from a counter. */
  class Control {
    var tasks: map<Migration.Uid, Task>
    var nextId: nat
    var statefulSets: map<NamespacedName, StatefulSet>
    var advancedStatefulSets: map<NamespacedName, StatefulSet>

    ghost predicate Valid()
      reads this
    {
      ValidTasks(tasks, nextId)
    }

    constructor (statefulSets: map<NamespacedName, StatefulSet>,
                 advancedStatefulSets: map<NamespacedName, StatefulSet>)
      ensures Valid() && tasks == map[]
      ensures this.statefulSets == statefulSets && this.advancedStatefulSets == advancedStatefulSets
    {
      tasks := map[];
      nextId := 0;
      this.statefulSets := statefulSets;
      this.advancedStatefulSets := advancedStatefulSets;
    }

    /** `client.Create` of an Advanced StatefulSet. */
    method CreateAdvancedStatefulSet(a: StatefulSet, createError: Option<string>) returns (err: Option<string>)
      modifies this`advancedStatefulSets
      ensures var key := NamespacedName(a.meta.namespace, a.meta.name);
        && (key in old(advancedStatefulSets) ==> err == Some(AlreadyExists(AdvancedStatefulSetsResource, a.meta.name)))
        && (key !in old(advancedStatefulSets) ==> err == createError)
        && advancedStatefulSets == if err.None? then old(advancedStatefulSets)[key := a] else old(advancedStatefulSets)
    {
      var key := NamespacedName(a.meta.namespace, a.meta.name);
      if key in advancedStatefulSets {
        return Some(AlreadyExists(AdvancedStatefulSetsResource, a.meta.name));
      }
      if createError.Some? {
        return createError;
      }
      advancedStatefulSets := advancedStatefulSets[key := a];
      return None;
    }

    /** `client.Delete` with orphan propagation: the StatefulSet goes, its pods stay. */
    method OrphanDeleteStatefulSet(key: NamespacedName, deleteError: Option<string>) returns (err: Option<string>)
      requires key in statefulSets
      modifies this`statefulSets
      ensures err == deleteError
      ensures statefulSets == if err.None? then old(statefulSets) - {key} else old(statefulSets)
    {
      if deleteError.Some? {
        return deleteError;
      }
      statefulSets := statefulSets - {key};
      return None;
    }

    /** `Submit`: the options are ignored. Each step runs only if the one before it
        succeeded, and a task is recorded only when all succeeded; a failed delete leaves
        the created Advanced StatefulSet in place. */
    method Submit(src: ResourceRef, dst: ResourceRef, opts: Migration.Options, now: int,
                  createError: Option<string>, deleteError: Option<string>) returns (r: Result<Migration.Result>)
      requires Valid()
      modifies this
      ensures Valid()
      ensures var srcKey := src.GetNamespacedName();
              var dstKey := dst.GetNamespacedName();
        // a missing source: nothing created, nothing deleted, nothing recorded
        && (srcKey !in old(statefulSets) ==>
              && r == Err("get native StatefulSet: " + NotFound(StatefulSetsResource, src.name))
              && advancedStatefulSets == old(advancedStatefulSets) && statefulSets == old(statefulSets))
        // a failed create: the source is kept and nothing is recorded
        && (srcKey in old(statefulSets) && dstKey in old(advancedStatefulSets) ==>
              && r == Err("create ASS: " + AlreadyExists(AdvancedStatefulSetsResource, dst.name))
              && advancedStatefulSets == old(advancedStatefulSets) && statefulSets == old(statefulSets))
        && (srcKey in old(statefulSets) && dstKey !in old(advancedStatefulSets) && createError.Some? ==>
              && r == Err("create ASS: " + createError.value)
              && advancedStatefulSets == old(advancedStatefulSets) && statefulSets == old(statefulSets))
        // past the create, the Advanced StatefulSet exists whatever the delete does
        && (srcKey in old(statefulSets) && dstKey !in old(advancedStatefulSets) && createError.None? ==>
              && advancedStatefulSets == old(advancedStatefulSets)[dstKey := MigratedStatefulSet(old(statefulSets)[srcKey], dst)]
              && (deleteError.Some? ==> r == Err("orphan-delete SS: " + deleteError.value) && statefulSets == old(statefulSets))
              && (deleteError.None? ==> r.Ok? && statefulSets == old(statefulSets) - {srcKey}))
        // a task is recorded exactly on success, under a fresh ID, and returned
        && (r.Err? ==> tasks == old(tasks) && nextId == old(nextId))
        && (r.Ok? ==>
              && old(nextId) !in old(tasks)
              && r.value == SucceededResult(old(nextId))
              && tasks == old(tasks)[old(nextId) := Task(old(nextId), now, src, dst, r.value)]
              && nextId == old(nextId) + 1)
    {
      if src.GetNamespacedName() !in statefulSets {
        return Err("get native StatefulSet: " + NotFound(StatefulSetsResource, src.name));
      }
      var ss := statefulSets[src.GetNamespacedName()];

      var ass := MigratedStatefulSet(ss, dst);
      var err := CreateAdvancedStatefulSet(ass, createError);
      if err.Some? {
        return Err("create ASS: " + err.value);
      }

      err := OrphanDeleteStatefulSet(src.GetNamespacedName(), deleteError);
      if err.Some? {
        return Err("orphan-delete SS: " + err.value);
      }

      var id := nextId;
      var result := SucceededResult(id);
      RecordKeepsValid(tasks, nextId, Task(id, now, src, dst, result));
      tasks := tasks[id := Task(id, now, src, dst, result)];
      nextId := nextId + 1;
      return Ok(result);
    }

    /** `Query`: the recorded result, the same on every call. */
    method Query(id: Migration.Uid) returns (r: Result<Migration.Result>)
      requires Valid()
      ensures r.Ok? <==> id in tasks
      ensures r.Ok? ==> r.value == tasks[id].result && r.value == SucceededResult(id)
      ensures r.Err? ==> r.error == "task " + NatToString(id) + " not found"
    {
      if id !in tasks {
        return Err("task " + NatToString(id) + " not found");
      }
      return Ok(tasks[id].result);
    }
  }
}
