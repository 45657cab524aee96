/** The one-shot DaemonSet to Advanced DaemonSet migration
    (pkg/migration/daemonset/daemonset_migration.go): create the Advanced DaemonSet,
    then delete the DaemonSet with orphan propagation so that its pods stay and are
    adopted by the new owner, and record the task as already Succeeded. */
module DaemonSetMigration {
  import opened Wrappers
  import opened Strings
  import opened Api
  import opened Workloads
  import Migration

  /** `task`; `start` is the submission time. */
  datatype Task = Task(id: Migration.Uid, start: int, src: ResourceRef, dst: ResourceRef, result: Migration.Result)

  /** The only result this control ever records. */
  function SucceededResult(id: Migration.Uid): Migration.Result
  {
    Migration.Result(id, Migration.MigrateSucceeded, "", 0, 0)
  }

  /** Every stored task is held under its own ID, drawn before `nextId`, and is Succeeded
      with both counters zero. */
  predicate ValidTasks(tasks: map<Migration.Uid, Task>, nextId: nat)
  {
    forall id :: id in tasks ==> tasks[id].id == id && id < nextId && tasks[id].result == SucceededResult(id)
  }

  /** Recording a task under the next ID keeps the task store valid and leaves every
      earlier task as it was. */
  lemma RecordKeepsValid(tasks: map<Migration.Uid, Task>, nextId: nat, t: Task)
    requires ValidTasks(tasks, nextId)
    requires t.id == nextId && t.result == SucceededResult(nextId)
    ensures nextId !in tasks
    ensures ValidTasks(tasks[nextId := t], nextId + 1)
    ensures forall id :: id in tasks ==> tasks[nextId := t][id] == tasks[id]
  {
  }

  /** `control`: the recorded tasks and the DaemonSets and Advanced DaemonSets of the
      cluster. IDs come from a counter. */
  class Control {
    var tasks: map<Migration.Uid, Task>
    var nextId: nat
    var daemonSets: map<NamespacedName, DaemonSet>
    var advancedDaemonSets: map<NamespacedName, DaemonSet>

    ghost predicate Valid()
      reads this
    {
      ValidTasks(tasks, nextId)
    }

    constructor (daemonSets: map<NamespacedName, DaemonSet>,
                 advancedDaemonSets: map<NamespacedName, DaemonSet>)
      ensures Valid() && tasks == map[]
      ensures this.daemonSets == daemonSets && this.advancedDaemonSets == advancedDaemonSets
    {
      tasks := map[];
      nextId := 0;
      this.daemonSets := daemonSets;
      this.advancedDaemonSets := advancedDaemonSets;
    }

    /** `client.Create` of an Advanced DaemonSet. */
    method CreateAdvancedDaemonSet(a: DaemonSet, createError: Option<string>) returns (err: Option<string>)
      modifies this`advancedDaemonSets
      ensures var key := NamespacedName(a.meta.namespace, a.meta.name);
        && (key in old(advancedDaemonSets) ==> err == Some(AlreadyExists(AdvancedDaemonSetsResource, a.meta.name)))
        && (key !in old(advancedDaemonSets) ==> err == createError)
        && advancedDaemonSets == if err.None? then old(advancedDaemonSets)[key := a] else old(advancedDaemonSets)
    {
      var key := NamespacedName(a.meta.namespace, a.meta.name);
      if key in advancedDaemonSets {
        return Some(AlreadyExists(AdvancedDaemonSetsResource, a.meta.name));
      }
      if createError.Some? {
        return createError;
      }
      advancedDaemonSets := advancedDaemonSets[key := a];
      return None;
    }

    /** `client.Delete` with orphan propagation: the DaemonSet goes, its pods stay. */
    method OrphanDeleteDaemonSet(key: NamespacedName, deleteError: Option<string>) returns (err: Option<string>)
      requires key in daemonSets
      modifies this`daemonSets
      ensures err == deleteError
      ensures daemonSets == if err.None? then old(daemonSets) - {key} else old(daemonSets)
    {
      if deleteError.Some? {
        return deleteError;
      }
      daemonSets := daemonSets - {key};
      return None;
    }

    /** `Submit`: the options are ignored. Each step runs only if the one before it
        succeeded, and a task is recorded only when all succeeded; a failed delete leaves
        the created Advanced DaemonSet in place. */
    method Submit(src: ResourceRef, dst: ResourceRef, opts: Migration.Options, now: int,
                  createError: Option<string>, deleteError: Option<string>) returns (r: Result<Migration.Result>)
      requires Valid()
      modifies this
      ensures Valid()
      ensures var srcKey := src.GetNamespacedName();
              var dstKey := dst.GetNamespacedName();
        // a missing source: nothing created, nothing deleted, nothing recorded
        && (srcKey !in old(daemonSets) ==>
              && r == Err("get native DaemonSet: " + NotFound(DaemonSetsResource, src.name))
              && advancedDaemonSets == old(advancedDaemonSets) && daemonSets == old(daemonSets))
        // a failed create: the source is kept and nothing is recorded
        && (srcKey in old(daemonSets) && dstKey in old(advancedDaemonSets) ==>
              && r == Err("create ADS: " + AlreadyExists(AdvancedDaemonSetsResource, dst.name))
              && advancedDaemonSets == old(advancedDaemonSets) && daemonSets == old(daemonSets))
        && (srcKey in old(daemonSets) && dstKey !in old(advancedDaemonSets) && createError.Some? ==>
              && r == Err("create ADS: " + createError.value)
              && advancedDaemonSets == old(advancedDaemonSets) && daemonSets == old(daemonSets))
        // past the create, the Advanced DaemonSet exists whatever the delete does
        && (srcKey in old(daemonSets) && dstKey !in old(advancedDaemonSets) && createError.None? ==>
              && advancedDaemonSets == old(advancedDaemonSets)[dstKey := AdvancedDaemonSetFrom(old(daemonSets)[srcKey], dst.namespace, dst.name)]
              && (deleteError.Some? ==> r == Err("orphan-delete DS: " + deleteError.value) && daemonSets == old(daemonSets))
              && (deleteError.None? ==> r.Ok? && daemonSets == old(daemonSets) - {srcKey}))
        // a task is recorded exactly on success, under a fresh ID, and returned
        && (r.Err? ==> tasks == old(tasks) && nextId == old(nextId))
        && (r.Ok? ==>
              && old(nextId) !in old(tasks)
              && r.value == SucceededResult(old(nextId))
              && tasks == old(tasks)[old(nextId) := Task(old(nextId), now, src, dst, r.value)]
              && nextId == old(nextId) + 1)
    {
      if src.GetNamespacedName() !in daemonSets {
        return Err("get native DaemonSet: " + NotFound(DaemonSetsResource, src.name));
      }
      var ds := daemonSets[src.GetNamespacedName()];

      var ads := AdvancedDaemonSetFrom(ds, dst.namespace, dst.name);
      var err := CreateAdvancedDaemonSet(ads, createError);
      if err.Some? {
        return Err("create ADS: " + err.value);
      }

      err := OrphanDeleteDaemonSet(src.GetNamespacedName(), deleteError);
      if err.Some? {
        return Err("orphan-delete DS: " + err.value);
      }

      var id := nextId;
      var result := SucceededResult(id);
      RecordKeepsValid(tasks, nextId, Task(id, now, src, dst, result));
      tasks := tasks[id := Task(id, now, src, dst, result)];
      nextId := nextId + 1;
      return Ok(result);
    }

    /** `Query`: the recorded result, the same on every call. */
    method Query(id: Migration.Uid) returns (r: Result<Migration.Result>)
      requires Valid()
      ensures r.Ok? <==> id in tasks
      ensures r.Ok? ==> r.value == tasks[id].result && r.value == SucceededResult(id)
      ensures r.Err? ==> r.error == "task " + NatToString(id) + " not found"
    {
      if id !in tasks {
        return Err("task " + NatToString(id) + " not found");
      }
      return Ok(tasks[id].result);
    }
  }
}
