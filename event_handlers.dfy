/** The informer callbacks of the CloneSet migration controller
    (pkg/migration/cloneset/event_handlers.go). A callback only wakes the task that owns
    the changed object: it puts that task's ID on the queue and changes nothing else. */
module CloneSetMigrationEvents {
  import opened Wrappers
  import opened Api
  import Migration
  import opened CloneSetMigration

  /** What an informer hands to a callback: a typed object, or anything else (for
      example a tombstone for an object whose deletion was missed). */
  datatype EventObject =
    | DeploymentObject(namespace: string, name: string)
    | CloneSetObject(namespace: string, name: string)
    | OtherObject

  /** The reference a CloneSet callback builds; objects of another type are ignored. */
  function CloneSetEventRef(obj: EventObject): (r: Option<ResourceRef>)
    ensures r.Some? <==> obj.CloneSetObject?
    ensures r.Some? ==> r.value.GetGroupVersionKind() == CloneSetKind
                        && r.value.GetNamespacedName() == NamespacedName(obj.namespace, obj.name)
  {
    match obj
    case CloneSetObject(ns, name) => Some(NewCloneSetRef(ns, name))
    case _ => None
  }

  /** The reference a Deployment callback builds; objects of another type are ignored. */
  function DeploymentEventRef(obj: EventObject): (r: Option<ResourceRef>)
    ensures r.Some? <==> obj.DeploymentObject?
    ensures r.Some? ==> r.value.GetGroupVersionKind() == DeploymentKind
                        && r.value.GetNamespacedName() == NamespacedName(obj.namespace, obj.name)
  {
    match obj
    case DeploymentObject(ns, name) => Some(NewDeploymentRef(ns, name))
    case _ => None
  }

  /** The IDs a callback for `ref` puts on the queue: the owner's, if the object is held
      by an Executing task. */
  function Woken(executingTasks: map<ResourceRef, Migration.Uid>, ref: Option<ResourceRef>): set<Migration.Uid>
  {
    if ref.Some? && ref.value in executingTasks then {executingTasks[ref.value]} else {}
  }

  /** A Deployment event wakes at most one task, which is Executing and migrates from
      exactly that Deployment; a CloneSet event wakes at most the Executing task that
      migrates into exactly that CloneSet. */
  lemma WokenIsOwner(tasks: map<Migration.Uid, Task>, executingTasks: map<ResourceRef, Migration.Uid>,
                     queue: set<Migration.Uid>, nextId: nat, obj: EventObject)
    requires ValidState(tasks, executingTasks, queue, nextId)
    ensures |Woken(executingTasks, DeploymentEventRef(obj))| <= 1
    ensures forall id :: id in Woken(executingTasks, DeploymentEventRef(obj)) ==>
              id in tasks && tasks[id].result.state.MigrateExecuting?
              && tasks[id].src == DeploymentEventRef(obj).value
    ensures |Woken(executingTasks, CloneSetEventRef(obj))| <= 1
    ensures forall id :: id in Woken(executingTasks, CloneSetEventRef(obj)) ==>
              id in tasks && tasks[id].result.state.MigrateExecuting?
              && tasks[id].dst == CloneSetEventRef(obj).value
  {
    var d := DeploymentEventRef(obj);
    if d.Some? && d.value in executingTasks {
      assert d.value.kind == DeploymentKind.kind;
    }
    var c := CloneSetEventRef(obj);
    if c.Some? && c.value in executingTasks {
      assert c.value.kind == CloneSetKind.kind;
    }
  }

  /** The shared effect of every callback: under the read lock, enqueue the owner. */
  method EnqueueOwner(ctrl: Control, ref: Option<ResourceRef>)
    requires ctrl.Valid()
    modifies ctrl`queue
    ensures ctrl.Valid()
    ensures ctrl.queue == old(ctrl.queue) + Woken(ctrl.executingTasks, ref)
  {
    if ref.Some? && ref.value in ctrl.executingTasks {
      ctrl.queue := ctrl.queue + {ctrl.executingTasks[ref.value]};
    }
  }

  /** `cloneSetHandler`. */
  class CloneSetHandler {
    const ctrl: Control

    constructor (ctrl: Control)
      ensures this.ctrl == ctrl
    {
      this.ctrl := ctrl;
    }

    method OnAdd(obj: EventObject, isInInitialList: bool)
      requires ctrl.Valid()
      modifies ctrl`queue
      ensures ctrl.Valid()
      ensures ctrl.queue == old(ctrl.queue) + Woken(ctrl.executingTasks, CloneSetEventRef(obj))
    {
      EnqueueOwner(ctrl, CloneSetEventRef(obj));
    }

    /** Keys on the new object only. */
    method OnUpdate(oldObj: EventObject, newObj: EventObject)
      requires ctrl.Valid()
      modifies ctrl`queue
      ensures ctrl.Valid()
      ensures ctrl.queue == old(ctrl.queue) + Woken(ctrl.executingTasks, CloneSetEventRef(newObj))
    {
      EnqueueOwner(ctrl, CloneSetEventRef(newObj));
    }

    method OnDelete(obj: EventObject)
      requires ctrl.Valid()
      modifies ctrl`queue
      ensures ctrl.Valid()
      ensures ctrl.queue == old(ctrl.queue) + Woken(ctrl.executingTasks, CloneSetEventRef(obj))
    {
      EnqueueOwner(ctrl, CloneSetEventRef(obj));
    }
  }

  /** `deploymentHandler`. */
  class DeploymentHandler {
    const ctrl: Control

    constructor (ctrl: Control)
      ensures this.ctrl == ctrl
    {
      this.ctrl := ctrl;
    }

    method OnAdd(obj: EventObject, isInInitialList: bool)
      requires ctrl.Valid()
      modifies ctrl`queue
      ensures ctrl.Valid()
      ensures ctrl.queue == old(ctrl.queue) + Woken(ctrl.executingTasks, DeploymentEventRef(obj))
    {
      EnqueueOwner(ctrl, DeploymentEventRef(obj));
    }

    /** Keys on the new object only. */
    method OnUpdate(oldObj: EventObject, newObj: EventObject)
      requires ctrl.Valid()
      modifies ctrl`queue
      ensures ctrl.Valid()
      ensures ctrl.queue == old(ctrl.queue) + Woken(ctrl.executingTasks, DeploymentEventRef(newObj))
    {
      EnqueueOwner(ctrl, DeploymentEventRef(newObj));
    }

    method OnDelete(obj: EventObject)
      requires ctrl.Valid()
      modifies ctrl`queue
      ensures ctrl.Valid()
      ensures ctrl.queue == old(ctrl.queue) + Woken(ctrl.executingTasks, DeploymentEventRef(obj))
    {
      EnqueueOwner(ctrl, DeploymentEventRef(obj));
    }
  }
}
