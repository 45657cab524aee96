/** Small shared helpers of pkg/utils: the variadic minimum used by the migration
    controller, and the Kruise Rollouts annotation predicates (pkg/utils/misc.go). */
module Utils {
  import opened Wrappers
  import opened Strings

  /** `utils.Int32Min(a, items...)`: the least of its arguments. */
  function Int32Min(a: int, items: seq<int>): (r: int)
    ensures r <= a
    ensures forall i :: 0 <= i < |items| ==> r <= items[i]
    ensures r == a || r in items
  {
    if items == [] then a
    else
      var m := Int32Min(a, items[..|items| - 1]);
      if items[|items| - 1] < m then items[|items| - 1] else m
  }

  const InRolloutProgressingAnnotation := "rollouts.kruise.io/in-progressing"
  const DeploymentStrategyAnnotation := "rollouts.kruise.io/deployment-strategy"
  const KruiseRolloutsPrefix := "rollouts.kruise.io/"

  /** Whether an optional annotation key mentions the Kruise Rollouts API group. */
  function IsKruiseRolloutsAnnotation(s: Option<string>): (r: bool)
    ensures s.None? ==> !r
    ensures s.Some? ==> (r <==> exists i :: OccursAt(s.value, KruiseRolloutsPrefix, i))
  {
    match s
    case None => false
    case Some(v) =>
      ContainsOccurs(v, KruiseRolloutsPrefix);
      Contains(v, KruiseRolloutsPrefix)
  }

  /** The parts of a Deployment that `InCanaryProgress` looks at. */
  datatype DeploymentMeta = DeploymentMeta(annotations: map<string, string>, paused: bool)

  /** A Deployment is in a Kruise Rollouts canary when it is paused, carries the
      in-progressing annotation and is not under the partition strategy. */
  function InCanaryProgress(d: DeploymentMeta): (r: bool)
    ensures r <==> d.paused && InRolloutProgressingAnnotation in d.annotations
                   && DeploymentStrategyAnnotation !in d.annotations
  {
    if !d.paused then false
    else if InRolloutProgressingAnnotation !in d.annotations then false
    else if DeploymentStrategyAnnotation in d.annotations then false
    else true
  }

  /** Both annotations the predicate consults are Kruise Rollouts annotations. */
  lemma CanaryAnnotationsAreKruise()
    ensures IsKruiseRolloutsAnnotation(Some(InRolloutProgressingAnnotation))
    ensures IsKruiseRolloutsAnnotation(Some(DeploymentStrategyAnnotation))
  {
    assert OccursAt(InRolloutProgressingAnnotation, KruiseRolloutsPrefix, 0);
    assert OccursAt(DeploymentStrategyAnnotation, KruiseRolloutsPrefix, 0);
  }
}
