/** Creating an Advanced DaemonSet next to an existing DaemonSet
    (pkg/creation/daemonset/daemonset_creation.go). */
module DaemonSetCreation {
  import opened Wrappers
  import opened Api
  import opened Workloads

  /** `control`: the DaemonSets and Advanced DaemonSets of the cluster. */
  class Control {
    var daemonSets: map<NamespacedName, DaemonSet>
    var advancedDaemonSets: map<NamespacedName, DaemonSet>

    constructor (daemonSets: map<NamespacedName, DaemonSet>, advancedDaemonSets: map<NamespacedName, DaemonSet>)
      ensures this.daemonSets == daemonSets && this.advancedDaemonSets == advancedDaemonSets
    {
      this.daemonSets := daemonSets;
      this.advancedDaemonSets := advancedDaemonSets;
    }

    /** `Create`: read the source, build, create. A DaemonSet has no replica count, so
        `opts` has no effect. */
    method Create(srcRef: ResourceRef, dstRef: ResourceRef, opts: CreationOptions,
                  readError: Option<string>, createError: Option<string>) returns (err: Option<string>)
      modifies this`advancedDaemonSets
      ensures var key := dstRef.GetNamespacedName();
        && (readError.Some? ==> err == readError)
        && (readError.None? && srcRef.GetNamespacedName() !in daemonSets ==>
              err == Some(NotFound(DaemonSetsResource, srcRef.name)))
        && (readError.None? && srcRef.GetNamespacedName() in daemonSets && key in old(advancedDaemonSets) ==>
              err == Some(AlreadyExists(AdvancedDaemonSetsResource, dstRef.name)))
        && (readError.None? && srcRef.GetNamespacedName() in daemonSets && key !in old(advancedDaemonSets) ==>
              err == createError)
        && advancedDaemonSets ==
             if err.None?
             then old(advancedDaemonSets)[key := AdvancedDaemonSetFrom(daemonSets[srcRef.GetNamespacedName()],
                                                                      dstRef.namespace, dstRef.name)]
             else old(advancedDaemonSets)
    {
      if readError.Some? {
        return readError;
      }
      if srcRef.GetNamespacedName() !in daemonSets {
        return Some(NotFound(DaemonSetsResource, srcRef.name));
      }
      var ds := daemonSets[srcRef.GetNamespacedName()];
      var ads := AdvancedDaemonSetFrom(ds, dstRef.namespace, dstRef.name);
      var key := NamespacedName(ads.meta.namespace, ads.meta.name);
      if key in advancedDaemonSets {
        return Some(AlreadyExists(AdvancedDaemonSetsResource, ads.meta.name));
      }
      if createError.Some? {
        return createError;
      }
      advancedDaemonSets := advancedDaemonSets[key := ads];
      return None;
    }
  }
}
