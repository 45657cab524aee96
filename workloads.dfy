/** The workload objects the migration and creation commands read and write: apps/v1
    Deployment, StatefulSet and DaemonSet, and the OpenKruise CloneSet, Advanced
    StatefulSet and Advanced DaemonSet. Only the fields the commands touch are kept;
    selectors, pod templates and claim templates are copied verbatim and never looked
    into, so they stay opaque. */
module Workloads {
  import opened Wrappers
  import opened Api

  datatype LabelSelector = LabelSelector(text: string)
  datatype PodTemplateSpec = PodTemplateSpec(text: string)
  datatype PersistentVolumeClaim = PersistentVolumeClaim(text: string)
  datatype IntOrString = IntValue(i: int) | StringValue(s: string)

  datatype ObjectMeta = ObjectMeta(namespace: string, name: string, labels: map<string, string>,
                                   annotations: map<string, string>, finalizers: seq<string>)

  /** Metadata with only a name, a namespace and labels set. */
  function NamedMeta(namespace: string, name: string, labels: map<string, string>): ObjectMeta
  {
    ObjectMeta(namespace, name, labels, map[], [])
  }

  // ---------------------------------------------------------------- Deployment / CloneSet

  datatype RollingUpdateDeployment = RollingUpdateDeployment(maxUnavailable: Option<IntOrString>,
                                                             maxSurge: Option<IntOrString>)
  datatype DeploymentStrategy = DeploymentStrategy(strategyType: string,
                                                   rollingUpdate: Option<RollingUpdateDeployment>)
  datatype DeploymentSpec = DeploymentSpec(replicas: Option<int>, selector: Option<LabelSelector>,
                                           template: PodTemplateSpec, strategy: DeploymentStrategy,
                                           minReadySeconds: int, revisionHistoryLimit: Option<int>,
                                           paused: bool)
  datatype Deployment = Deployment(meta: ObjectMeta, spec: DeploymentSpec)

  const RecreateCloneSetUpdateStrategyType := "ReCreate"

  datatype CloneSetUpdateStrategy = CloneSetUpdateStrategy(strategyType: string, paused: bool,
                                                           maxUnavailable: Option<IntOrString>,
                                                           maxSurge: Option<IntOrString>)
  datatype CloneSetSpec = CloneSetSpec(replicas: Option<int>, selector: Option<LabelSelector>,
                                       template: PodTemplateSpec, revisionHistoryLimit: Option<int>,
                                       minReadySeconds: int, updateStrategy: CloneSetUpdateStrategy)
  datatype CloneSet = CloneSet(meta: ObjectMeta, spec: CloneSetSpec)

  // ---------------------------------------------------------------- StatefulSet

  datatype RollingUpdateStatefulSetStrategy = RollingUpdateStatefulSetStrategy(partition: Option<int>,
                                                                               maxUnavailable: Option<IntOrString>)
  datatype StatefulSetUpdateStrategy = StatefulSetUpdateStrategy(strategyType: string,
                                                                 rollingUpdate: Option<RollingUpdateStatefulSetStrategy>)
  datatype StatefulSetSpec = StatefulSetSpec(replicas: Option<int>, serviceName: string,
                                             selector: Option<LabelSelector>, template: PodTemplateSpec,
                                             volumeClaimTemplates: seq<PersistentVolumeClaim>,
                                             updateStrategy: StatefulSetUpdateStrategy,
                                             podManagementPolicy: string, revisionHistoryLimit: Option<int>,
                                             minReadySeconds: int)
  /** Both the apps/v1 StatefulSet and the apps.kruise.io/v1beta1 Advanced StatefulSet:
      the commands only use the fields the two kinds share. */
  datatype StatefulSet = StatefulSet(meta: ObjectMeta, spec: StatefulSetSpec)

  // ---------------------------------------------------------------- DaemonSet

  datatype DaemonSetUpdateStrategy = DaemonSetUpdateStrategy(strategyType: string,
                                                             maxUnavailable: Option<IntOrString>)
  datatype DaemonSetSpec = DaemonSetSpec(selector: Option<LabelSelector>, template: PodTemplateSpec,
                                         updateStrategy: DaemonSetUpdateStrategy,
                                         minReadySeconds: int, revisionHistoryLimit: Option<int>)
  /** Both the apps/v1 DaemonSet and the apps.kruise.io/v1alpha1 Advanced DaemonSet. */
  datatype DaemonSet = DaemonSet(meta: ObjectMeta, spec: DaemonSetSpec)

  /** The Advanced DaemonSet the migration and creation commands build from a DaemonSet
      (pkg/migration/daemonset/daemonset_migration.go:72-85 and
      pkg/creation/daemonset/daemonset_creation.go:45-58 build the same object). */
  function AdvancedDaemonSetFrom(ds: DaemonSet, namespace: string, name: string): (a: DaemonSet)
    ensures a.meta.namespace == namespace && a.meta.name == name && a.meta.labels == ds.meta.labels
    ensures a.meta.annotations == map[] && a.meta.finalizers == []
    ensures a.spec.selector == ds.spec.selector && a.spec.template == ds.spec.template
    ensures a.spec.updateStrategy.strategyType == ds.spec.updateStrategy.strategyType
    ensures a.spec.updateStrategy.maxUnavailable.None?
    ensures a.spec.minReadySeconds == 0 && a.spec.revisionHistoryLimit.None?
  {
    DaemonSet(NamedMeta(namespace, name, ds.meta.labels),
              DaemonSetSpec(ds.spec.selector, ds.spec.template,
                            DaemonSetUpdateStrategy(ds.spec.updateStrategy.strategyType, None), 0, None))
  }

  /** Nothing of the source DaemonSet but its labels, selector, template and update
      strategy type reaches the Advanced DaemonSet. */
  lemma AdvancedDaemonSetUsesOnly(ds1: DaemonSet, ds2: DaemonSet, namespace: string, name: string)
    requires ds1.meta.labels == ds2.meta.labels
    requires ds1.spec.selector == ds2.spec.selector && ds1.spec.template == ds2.spec.template
    requires ds1.spec.updateStrategy.strategyType == ds2.spec.updateStrategy.strategyType
    ensures AdvancedDaemonSetFrom(ds1, namespace, name) == AdvancedDaemonSetFrom(ds2, namespace, name)
  {
  }

  /** `creation.Options`: whether the created workload takes over the source's replica count. */
  datatype CreationOptions = CreationOptions(copyReplicas: bool)

  /** Every object of a store is held under its own namespace and name. */
  predicate KeyedByMeta<T>(store: map<NamespacedName, T>, meta: T -> ObjectMeta)
  {
    forall k :: k in store ==> meta(store[k]).namespace == k.namespace && meta(store[k]).name == k.name
  }

  // ---------------------------------------------------------------- API server errors

  /** The message of the API server's NotFound error for `resource` (plural.group). */
  function NotFound(resource: string, name: string): string
  {
    resource + " \"" + name + "\" not found"
  }

  /** The message of the API server's AlreadyExists error. */
  function AlreadyExists(resource: string, name: string): string
  {
    resource + " \"" + name + "\" already exists"
  }

  const DeploymentsResource := "deployments.apps"
  const CloneSetsResource := "clonesets.apps.kruise.io"
  const StatefulSetsResource := "statefulsets.apps"
  const AdvancedStatefulSetsResource := "statefulsets.apps.kruise.io"
  const DaemonSetsResource := "daemonsets.apps"
  const AdvancedDaemonSetsResource := "daemonsets.apps.kruise.io"
}
