/** Flags, messages and tests that the `set` and `rollout` commands share
    (pkg/cmd/set/set_image.go, pkg/cmd/set/set_env.go, pkg/cmd/rollout/rollout_undo.go). */
module CmdUtil {
  /** kubectl's `--dry-run` setting. */
  datatype DryRunStrategy = DryRunNone | DryRunClient | DryRunServer

  const AllWithSelectorError := "cannot set --all and --selector at the same time"
  const NoResourcesError := "one or more resources must be specified as <resource> <name> or <resource>/<name>"
  const LocalServerDryRunError := "cannot specify --local and --dry-run=server - did you mean --dry-run=client?"

  /** An empty patch, or the empty JSON object, changes nothing and is not sent. */
  predicate NoChange(patch: string)
  {
    patch == "" || patch == "{}"
  }
}
