/** `DeploymentToCloneSet` (pkg/conversion/cloneset_convertion.go): the CloneSet that
    takes over a Deployment's pods. Objects are values, so the source Deployment is
    never modified, as the deep copy in the source guarantees. */
module Conversion {
  import opened Wrappers
  import opened Workloads

  function DeploymentToCloneSet(deploy: Deployment, dstCloneSetName: string): (cs: CloneSet)
    ensures cs.meta == deploy.meta.(name := dstCloneSetName)
    ensures cs.spec.replicas == deploy.spec.replicas
    ensures cs.spec.selector == deploy.spec.selector && cs.spec.template == deploy.spec.template
    ensures cs.spec.revisionHistoryLimit == deploy.spec.revisionHistoryLimit
    ensures cs.spec.minReadySeconds == deploy.spec.minReadySeconds
    ensures cs.spec.updateStrategy.strategyType == RecreateCloneSetUpdateStrategyType
    ensures cs.spec.updateStrategy.paused == deploy.spec.paused
    // the surge limits are copied only from a rolling update that sets them
    ensures cs.spec.updateStrategy.maxSurge.Some? <==>
      deploy.spec.strategy.rollingUpdate.Some? && deploy.spec.strategy.rollingUpdate.value.maxSurge.Some?
    ensures cs.spec.updateStrategy.maxUnavailable.Some? <==>
      deploy.spec.strategy.rollingUpdate.Some? && deploy.spec.strategy.rollingUpdate.value.maxUnavailable.Some?
    ensures cs.spec.updateStrategy.maxSurge.Some? ==>
      cs.spec.updateStrategy.maxSurge == deploy.spec.strategy.rollingUpdate.value.maxSurge
    ensures cs.spec.updateStrategy.maxUnavailable.Some? ==>
      cs.spec.updateStrategy.maxUnavailable == deploy.spec.strategy.rollingUpdate.value.maxUnavailable
  {
    var from := deploy;
    var strategy := CloneSetUpdateStrategy(RecreateCloneSetUpdateStrategyType, deploy.spec.paused, None, None);
    var strategy :=
      if from.spec.strategy.rollingUpdate.Some? then
        var ru := from.spec.strategy.rollingUpdate.value;
        var s1 := if ru.maxUnavailable.Some? then strategy.(maxUnavailable := ru.maxUnavailable) else strategy;
        if ru.maxSurge.Some? then s1.(maxSurge := ru.maxSurge) else s1
      else strategy;
    CloneSet(ObjectMeta(from.meta.namespace, dstCloneSetName, from.meta.labels,
                        from.meta.annotations, from.meta.finalizers),
             CloneSetSpec(from.spec.replicas, from.spec.selector, from.spec.template,
                          from.spec.revisionHistoryLimit, from.spec.minReadySeconds, strategy))
  }

  /** The Deployment's own name and its strategy type never
      reach the CloneSet: two Deployments that agree on everything else convert alike. */
  lemma ConversionIgnoresName(d1: Deployment, d2: Deployment, dstCloneSetName: string)
    requires d1.meta.(name := "") == d2.meta.(name := "")
    requires d1.spec.(strategy := d1.spec.strategy.(strategyType := "")) ==
             d2.spec.(strategy := d2.spec.strategy.(strategyType := ""))
    ensures DeploymentToCloneSet(d1, dstCloneSetName) == DeploymentToCloneSet(d2, dstCloneSetName)
  {
    assert d1.meta.namespace == d1.meta.(name := "").namespace;
    assert d1.spec.strategy.rollingUpdate == d1.spec.(strategy := d1.spec.strategy.(strategyType := "")).strategy.rollingUpdate;
  }

  /** A Deployment whose strategy is not a rolling update (Recreate) gives a CloneSet with
      no surge limits, whatever the rest of the object holds. */
  lemma RecreateDeploymentHasNoSurge(d: Deployment, dstCloneSetName: string)
    requires d.spec.strategy.rollingUpdate.None?
    ensures DeploymentToCloneSet(d, dstCloneSetName).spec.updateStrategy ==
            CloneSetUpdateStrategy(RecreateCloneSetUpdateStrategyType, d.spec.paused, None, None)
  {
  }
}
