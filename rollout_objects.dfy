/** The Kruise Rollout objects the `rollout` subcommands edit in place: the steps of
    the strategy, the current step, and the canary or blue-green progress status. The
    v1alpha1 and v1beta1 API versions share these fields. */
module RolloutObjects {
  import opened Wrappers
  import opened Workloads

  /** A step of the release: the share of replicas it runs and the traffic it routes. */
  datatype CanaryStep = CanaryStep(replicas: Option<IntOrString>, traffic: Option<string>)

  /** `GetRollingStyle()`: blue-green when the strategy is blue-green, otherwise canary
      or partition. */
  datatype RollingStyle = CanaryStyle | PartitionStyle | BlueGreenStyle

  /** The dynamic type of the object handed to a helper. */
  datatype ObjectKind = RolloutV1alpha1 | RolloutV1beta1 | OtherObject

  /** The progress status of the canary or blue-green part of the release. */
  datatype StepStatus = StepStatus(currentStepState: string, nextStepIndex: int)

  const CanaryStepStatePaused := "StepPaused"
  const CanaryStepStateReady := "StepReady"

  /** A Rollout (or another object) as the helpers receive it, by pointer. */
  class RolloutObject {
    var kind: ObjectKind
    var style: RollingStyle
    var steps: seq<CanaryStep>
    var currentStepIndex: int
    var canaryStatus: Option<StepStatus>
    var blueGreenStatus: Option<StepStatus>

    constructor (kind: ObjectKind, style: RollingStyle, steps: seq<CanaryStep>, currentStepIndex: int,
                 canaryStatus: Option<StepStatus>, blueGreenStatus: Option<StepStatus>)
      ensures this.kind == kind && this.style == style && this.steps == steps
      ensures this.currentStepIndex == currentStepIndex
      ensures this.canaryStatus == canaryStatus && this.blueGreenStatus == blueGreenStatus
    {
      this.kind := kind;
      this.style := style;
      this.steps := steps;
      this.currentStepIndex := currentStepIndex;
      this.canaryStatus := canaryStatus;
      this.blueGreenStatus := blueGreenStatus;
    }
  }
}
