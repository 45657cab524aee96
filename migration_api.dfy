/** The migration interface shared by the migration controls (pkg/migration/api.go):
    options, the task result and its states. Task IDs (`types.UID`) are modelled as
    distinct numbers. */
module Migration {
  import opened Wrappers

  type Uid = nat

  /** `migration.Options`: every field may be nil. */
  datatype Options = Options(replicas: Option<int>, maxSurge: Option<int>, timeoutSeconds: Option<int>)

  datatype MigrateState = MigrateExecuting | MigrateSucceeded | MigrateFailed

  /** `migration.Result`. */
  datatype Result = Result(id: Uid, state: MigrateState, message: string,
                           srcMigratedReplicas: int, dstMigratedReplicas: int)

  function StateName(s: MigrateState): (r: string)
    ensures r in {"Executing", "Succeeded", "Failed"}
  {
    match s
    case MigrateExecuting => "Executing"
    case MigrateSucceeded => "Succeeded"
    case MigrateFailed => "Failed"
  }

  /** The three states print distinctly. */
  lemma StateNameInjective(s: MigrateState, t: MigrateState)
    ensures StateName(s) == StateName(t) ==> s == t
  {
  }
}
