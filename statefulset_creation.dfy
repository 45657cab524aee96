/** Creating an Advanced StatefulSet next to an existing StatefulSet
    (pkg/creation/statefulset/statefulset_creation.go). */
module StatefulSetCreation {
  import opened Wrappers
  import opened Api
  import opened Workloads

  /** The Advanced StatefulSet `Create` builds from the StatefulSet `ss`. */
  function AdvancedStatefulSetFor(ss: StatefulSet, dst: ResourceRef, opts: CreationOptions): (a: StatefulSet)
    ensures a.meta == NamedMeta(dst.namespace, dst.name, ss.meta.labels)
    // the replica count is taken over only on request, otherwise the new object starts empty
    ensures opts.copyReplicas && ss.spec.replicas.Some? ==> a.spec.replicas == ss.spec.replicas
    ensures !(opts.copyReplicas && ss.spec.replicas.Some?) ==> a.spec.replicas == Some(0)
    // the update strategy keeps only the rolling-update partition, and no type
    ensures a.spec.updateStrategy.strategyType == ""
    ensures a.spec.updateStrategy.rollingUpdate.Some? <==> ss.spec.updateStrategy.rollingUpdate.Some?
    ensures a.spec.updateStrategy.rollingUpdate.Some? ==>
      a.spec.updateStrategy.rollingUpdate.value ==
      RollingUpdateStatefulSetStrategy(ss.spec.updateStrategy.rollingUpdate.value.partition, None)
    // every other field but minReadySeconds is the source's
    ensures a.spec.(replicas := ss.spec.replicas, updateStrategy := ss.spec.updateStrategy,
                    minReadySeconds := ss.spec.minReadySeconds) == ss.spec
    ensures a.spec.minReadySeconds == 0
  {
    var ru := if ss.spec.updateStrategy.rollingUpdate.Some? then
                Some(RollingUpdateStatefulSetStrategy(ss.spec.updateStrategy.rollingUpdate.value.partition, None))
              else None;
    var replicas := if opts.copyReplicas && ss.spec.replicas.Some? then ss.spec.replicas else Some(0);
    StatefulSet(NamedMeta(dst.namespace, dst.name, ss.meta.labels),
                StatefulSetSpec(replicas, ss.spec.serviceName, ss.spec.selector, ss.spec.template,
                                ss.spec.volumeClaimTemplates, StatefulSetUpdateStrategy("", ru),
                                ss.spec.podManagementPolicy, ss.spec.revisionHistoryLimit, 0))
  }

  /** `control`: the StatefulSets and Advanced StatefulSets of the cluster. */
  class Control {
    var statefulSets: map<NamespacedName, StatefulSet>
    var advancedStatefulSets: map<NamespacedName, StatefulSet>

    constructor (statefulSets: map<NamespacedName, StatefulSet>,
                 advancedStatefulSets: map<NamespacedName, StatefulSet>)
      ensures this.statefulSets == statefulSets && this.advancedStatefulSets == advancedStatefulSets
    {
      this.statefulSets := statefulSets;
      this.advancedStatefulSets := advancedStatefulSets;
    }

    /** `Create`: read the source, build, create. There is no existence check of its
        own: a taken name is reported by the API server. Read and create errors are
        returned as they are. */
    method Create(srcRef: ResourceRef, dstRef: ResourceRef, opts: CreationOptions,
                  readError: Option<string>, createError: Option<string>) returns (err: Option<string>)
      modifies this`advancedStatefulSets
      ensures var key := dstRef.GetNamespacedName();
        && (readError.Some? ==> err == readError)
        && (readError.None? && srcRef.GetNamespacedName() !in statefulSets ==>
              err == Some(NotFound(StatefulSetsResource, srcRef.name)))
        && (readError.None? && srcRef.GetNamespacedName() in statefulSets && key in old(advancedStatefulSets) ==>
              err == Some(AlreadyExists(AdvancedStatefulSetsResource, dstRef.name)))
        && (readError.None? && srcRef.GetNamespacedName() in statefulSets && key !in old(advancedStatefulSets) ==>
              err == createError)
        && advancedStatefulSets ==
             if err.None?
             then old(advancedStatefulSets)[key := AdvancedStatefulSetFor(statefulSets[srcRef.GetNamespacedName()], dstRef, opts)]
             else old(advancedStatefulSets)
    {
      if readError.Some? {
        return readError;
      }
      if srcRef.GetNamespacedName() !in statefulSets {
        return Some(NotFound(StatefulSetsResource, srcRef.name));
      }
      var ss := statefulSets[srcRef.GetNamespacedName()];
      var ass := AdvancedStatefulSetFor(ss, dstRef, opts);
      var key := NamespacedName(ass.meta.namespace, ass.meta.name);
      if key in advancedStatefulSets {
        return Some(AlreadyExists(AdvancedStatefulSetsResource, ass.meta.name));
      }
      if createError.Some? {
        return createError;
      }
      advancedStatefulSets := advancedStatefulSets[key := ass];
      return None;
    }
  }
}
