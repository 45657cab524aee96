/** The `kruise migrate` command: flag checking and normalisation
    (pkg/cmd/migrate/migrate.go) and the CloneSet path of `Run`, which either creates
    the CloneSet or submits a migration and polls it to a terminal state
    (cmd/migrate/migrate_cloneset.go). */
module MigrateCommand {
  import opened Wrappers
  import opened Strings
  import opened Api
  import opened Workloads
  import Migration
  import CloneSetCreation
  import CloneSetMigration

  // ------------------------------------------------------------------ options translation

  /** The migration options the command hands to Submit: a flag is forwarded only when it
      carries a usable value, so the defaults (-1, 1, -1) leave Replicas and TimeoutSeconds
      unset. An explicit `--replicas 0` is forwarded. */
  function MigrationOptionsFor(replicas: int, maxSurge: int, timeoutSeconds: int): (opts: Migration.Options)
    ensures opts.replicas.Some? <==> replicas >= 0
    ensures opts.maxSurge.Some? <==> maxSurge >= 1
    ensures opts.timeoutSeconds.Some? <==> timeoutSeconds > 0
    ensures opts.replicas.Some? ==> opts.replicas.value == replicas
    ensures opts.maxSurge.Some? ==> opts.maxSurge.value == maxSurge
    ensures opts.timeoutSeconds.Some? ==> opts.timeoutSeconds.value == timeoutSeconds
  {
    Migration.Options(if replicas >= 0 then Some(replicas) else None,
                      if maxSurge >= 1 then Some(maxSurge) else None,
                      if timeoutSeconds > 0 then Some(timeoutSeconds) else None)
  }

  /** `--replicas 0` passes the command and is then refused by Submit, before Submit
      reads anything, while the default `--replicas -1` means "all replicas". */
  lemma ExplicitZeroReplicasRejected(src: ResourceRef, dst: ResourceRef, maxSurge: int, timeoutSeconds: int,
                                     deployments: CloneSetMigration.Store, cloneSets: CloneSetMigration.Store,
                                     executingTasks: map<ResourceRef, Migration.Uid>)
    ensures CloneSetMigration.ValidateSubmit(src, dst, MigrationOptionsFor(0, maxSurge, timeoutSeconds),
                                             deployments, cloneSets, executingTasks)
            == Err("invalid replicas 0")
    ensures MigrationOptionsFor(-1, maxSurge, timeoutSeconds).replicas.None?
  {
    assert IntToString(0) == "0";
  }

  /** With the default flags every submitted option passes Submit's option checks: the
      surge falls back to 1 and the replica count to the Deployment's own. */
  lemma DefaultFlagsPassOptionChecks(src: ResourceRef, dst: ResourceRef,
                                     deployments: CloneSetMigration.Store, cloneSets: CloneSetMigration.Store,
                                     executingTasks: map<ResourceRef, Migration.Uid>)
    requires src.GetGroupVersionKind() == DeploymentKind && dst.GetGroupVersionKind() == CloneSetKind
    requires src.GetNamespacedName() in deployments && dst.GetNamespacedName() in cloneSets
    requires src !in executingTasks && dst !in executingTasks
    ensures var r := CloneSetMigration.ValidateSubmit(src, dst, MigrationOptionsFor(-1, 1, -1),
                                                      deployments, cloneSets, executingTasks);
      r.Ok? && r.value.opts.replicas == Some(deployments[src.GetNamespacedName()].specReplicas as int)
      && r.value.opts.maxSurge == Some(1) && r.value.opts.timeoutSeconds.None?
  {
  }

  // ------------------------------------------------------------------ the poll loop

  /** How the poll loop ends: it returns (nil or an error), or it is still polling when
      the given answers run out. */
  datatype PollEnd = Returned(err: Option<string>) | StillPolling

  /** The end of the poll loop, given the answers Query gives at successive polls. */
  function PollEndOf(polls: seq<Result<Migration.Result>>): PollEnd
  {
    if polls == [] then StillPolling
    else match polls[0]
      case Err(e) => Returned(Some(e))
      case Ok(n) =>
        if n.state.MigrateSucceeded? then Returned(None)
        else if n.state.MigrateFailed? then Returned(Some("failed to migrate: " + n.message))
        else PollEndOf(polls[1..])
  }

  /** Concatenation regroups. */
  lemma Concat3(a: seq<string>, b: seq<string>, c: seq<string>)
    ensures a + b + c == a + (b + c)
  {
  }

  /** The answer at poll `i` shows a task still running. */
  predicate RunningAt(polls: seq<Result<Migration.Result>>, i: int)
    requires 0 <= i < |polls|
  {
    polls[i].Ok? && polls[i].value.state.MigrateExecuting?
  }

  /** The command reports success exactly when some poll shows the task Succeeded and
      every poll before it shows it still running. */
  lemma {:induction false} PollSucceedsIff(polls: seq<Result<Migration.Result>>)
    ensures PollEndOf(polls) == Returned(None) <==>
      exists i :: 0 <= i < |polls| && polls[i].Ok? && polls[i].value.state.MigrateSucceeded?
                  && forall j :: 0 <= j < i ==> RunningAt(polls, j)
  {
    if polls != [] {
      PollSucceedsIff(polls[1..]);
      if polls[0].Ok? && polls[0].value.state.MigrateExecuting? {
        if PollEndOf(polls) == Returned(None) {
          var i :| 0 <= i < |polls[1..]| && polls[1..][i].Ok? && polls[1..][i].value.state.MigrateSucceeded?
                   && forall j :: 0 <= j < i ==> RunningAt(polls[1..], j);
          assert forall j :: 0 <= j < i + 1 ==> RunningAt(polls, j) by {
            forall j | 0 <= j < i + 1 ensures RunningAt(polls, j) {
              if j > 0 { assert RunningAt(polls[1..], j - 1); }
            }
          }
        }
        if exists i :: 0 <= i < |polls| && polls[i].Ok? && polls[i].value.state.MigrateSucceeded?
                       && forall j :: 0 <= j < i ==> RunningAt(polls, j) {
          var i :| 0 <= i < |polls| && polls[i].Ok? && polls[i].value.state.MigrateSucceeded?
                   && forall j :: 0 <= j < i ==> RunningAt(polls, j);
          assert i > 0;
          assert forall j :: 0 <= j < i - 1 ==> RunningAt(polls[1..], j) by {
            forall j | 0 <= j < i - 1 ensures RunningAt(polls[1..], j) {
              assert RunningAt(polls, j + 1);
            }
          }
        }
      } else {
        if exists i :: 0 <= i < |polls| && polls[i].Ok? && polls[i].value.state.MigrateSucceeded?
                       && forall j :: 0 <= j < i ==> RunningAt(polls, j) {
          var i :| 0 <= i < |polls| && polls[i].Ok? && polls[i].value.state.MigrateSucceeded?
                   && forall j :: 0 <= j < i ==> RunningAt(polls, j);
          if i > 0 { assert RunningAt(polls, 0); }
        }
      }
    }
  }

  /** A migration whose task fails is reported as an error carrying the task's message. */
  lemma {:induction false} PollFailureCarriesMessage(polls: seq<Result<Migration.Result>>, i: nat)
    requires i < |polls| && polls[i].Ok? && polls[i].value.state.MigrateFailed?
    requires forall j :: 0 <= j < i ==> RunningAt(polls, j)
    ensures PollEndOf(polls) == Returned(Some("failed to migrate: " + polls[i].value.message))
  {
    if i > 0 {
      assert RunningAt(polls, 0);
      forall j | 0 <= j < i - 1 ensures RunningAt(polls[1..], j) {
        assert RunningAt(polls, j + 1);
      }
      PollFailureCarriesMessage(polls[1..], i - 1);
    }
  }

  /** Whether poll `n` changes a counter compared with `prev`, the previous answer. */
  predicate Progressed(prev: Migration.Result, n: Migration.Result)
  {
    n.srcMigratedReplicas != prev.srcMigratedReplicas || n.dstMigratedReplicas != prev.dstMigratedReplicas
  }

  // ------------------------------------------------------------------ the command

  /** `migrateOptions`: the flags as parsed, and what `Complete` derives from them. */
  class MigrateOptions {
    var namespace: string
    var from: string
    var to: string
    var srcName: string
    var dstName: string
    var srcRef: ResourceRef
    var dstRef: ResourceRef
    var isCreate: bool
    var isCopy: bool
    var replicas: int
    var maxSurge: int
    var timeoutSeconds: int

    /** The flags with their default values. */
    constructor ()
      ensures from == "" && srcName == "" && dstName == "" && !isCreate && !isCopy
      ensures replicas == -1 && maxSurge == 1 && timeoutSeconds == -1
    {
      namespace := "";
      from := "";
      to := "";
      srcName := "";
      dstName := "";
      srcRef := ResourceRef("", "", "", "");
      dstRef := ResourceRef("", "", "", "");
      isCreate := false;
      isCopy := false;
      replicas := -1;
      maxSurge := 1;
      timeoutSeconds := -1;
    }

    /** `Complete`: `ns` and `explicitNamespace` are what the kubeconfig loader returns, or
        `nsError` its failure. The checks run in order and stop at the first failure; the
        fields already written stay written. */
    method Complete(ns: string, explicitNamespace: bool, nsError: Option<string>, args: seq<string>)
      returns (err: Option<string>)
      modifies this`namespace, this`to, this`dstRef, this`from, this`srcRef
      ensures nsError.Some? ==> err == nsError
      ensures nsError.None? && !explicitNamespace ==> err == Some("must specify namespace by -n or --namespace")
      ensures nsError.None? && explicitNamespace ==> namespace == ns
      ensures nsError.None? && explicitNamespace && |args| == 0 ==> err == Some("must specify workload type like CloneSet")
      ensures nsError.None? && explicitNamespace && |args| > 1 ==> err == Some("more than one given args")
      ensures nsError.None? && explicitNamespace && |args| == 1 ==>
        && (old(from) == "" ==> err == Some("must specify --from"))
        && (old(from) != "" && srcName == "" ==> err == Some("must specify --src-name"))
        && (old(from) != "" && srcName != "" && dstName == "" && !isCreate ==> err == Some("must specify --dst-name"))
      // success needs every check to pass, and leaves two references in the same namespace of the supported kinds
      ensures err.None? <==>
        nsError.None? && explicitNamespace && |args| == 1 && old(from) in {"Deployment", "deployment"}
        && srcName != "" && (dstName != "" || isCreate) && args[0] in {"CloneSet", "cloneset"}
      ensures err.None? ==>
        && from == "Deployment" && to == "CloneSet"
        && srcRef == NewDeploymentRef(ns, srcName) && dstRef == NewCloneSetRef(ns, dstName)
        && srcRef.GetGroupVersionKind() == DeploymentKind && dstRef.GetGroupVersionKind() == CloneSetKind
        && srcRef.namespace == dstRef.namespace == ns
      ensures err.Some? ==> from == old(from)
    {
      if nsError.Some? {
        return nsError;
      } else if !explicitNamespace {
        return Some("must specify namespace by -n or --namespace");
      }
      namespace := ns;

      if |args| == 0 {
        return Some("must specify workload type like CloneSet");
      } else if |args| > 1 {
        return Some("more than one given args");
      }

      if |from| == 0 {
        return Some("must specify --from");
      }
      if |srcName| == 0 {
        return Some("must specify --src-name");
      }
      if |dstName| == 0 && !isCreate {
        return Some("must specify --dst-name");
      }

      if args[0] == "CloneSet" || args[0] == "cloneset" {
        to := "CloneSet";
        dstRef := NewCloneSetRef(ns, dstName);
      } else {
        return Some("currently only supported CloneSet as dst type");
      }

      if from == "Deployment" || from == "deployment" {
        from := "Deployment";
        srcRef := NewDeploymentRef(ns, srcName);
      } else {
        return Some("currently only supported Deployment as src type");
      }
      return None;
    }

    /** The "Migration progress" line printed for a poll that changed a counter. */
    function ProgressLine(n: Migration.Result): string
      reads this
    {
      "Migration progress: " + from + "/" + srcName + " scale in " + IntToString(n.srcMigratedReplicas)
      + ", " + to + "/" + dstName + " scale out " + IntToString(n.dstMigratedReplicas)
    }

    /** The line printed at a poll answering `n` after `prev`, if any. */
    function LineAt(prev: Migration.Result, n: Migration.Result): seq<string>
      reads this
    {
      if Progressed(prev, n) then [ProgressLine(n)] else []
    }

    /** The progress lines the poll loop prints, from `prev` on: one for each reached poll
        whose counters differ from the poll before it, up to the first error or terminal state. */
    function ProgressLines(prev: Migration.Result, polls: seq<Result<Migration.Result>>): seq<string>
      reads this
      decreases |polls|
    {
      if polls == [] || polls[0].Err? then []
      else
        var n := polls[0].value;
        LineAt(prev, n) + (if n.state.MigrateSucceeded? || n.state.MigrateFailed? then [] else ProgressLines(n, polls[1..]))
    }

    /** At most one progress line per poll. */
    lemma {:induction false} ProgressLinesBound(prev: Migration.Result, polls: seq<Result<Migration.Result>>)
      ensures |ProgressLines(prev, polls)| <= |polls|
      decreases |polls|
    {
      if polls != [] && polls[0].Ok? {
        ProgressLinesBound(polls[0].value, polls[1..]);
      }
    }

    /** Counters that never move from those of `prev` print no progress. */
    lemma {:induction false} ProgressLinesQuiet(prev: Migration.Result, polls: seq<Result<Migration.Result>>)
      requires forall i :: 0 <= i < |polls| && polls[i].Ok? ==> !Progressed(prev, polls[i].value)
      ensures ProgressLines(prev, polls) == []
      decreases |polls|
    {
      if polls != [] && polls[0].Ok? {
        var rest := polls[1..];
        assert forall i :: 0 <= i < |rest| && rest[i].Ok? ==> !Progressed(polls[0].value, rest[i].value) by {
          forall i | 0 <= i < |rest| && rest[i].Ok?
            ensures !Progressed(polls[0].value, rest[i].value)
          {
            assert rest[i] == polls[i + 1];
          }
        }
        ProgressLinesQuiet(polls[0].value, rest);
      }
    }

    /** ProgressLines and PollEndOf unfolded at position `k`. */
    lemma ProgressLinesAt(prev: Migration.Result, polls: seq<Result<Migration.Result>>, k: nat)
      requires k < |polls|
      ensures polls[k].Err? ==> ProgressLines(prev, polls[k..]) == []
      ensures polls[k].Ok? ==>
        var n := polls[k].value;
        ProgressLines(prev, polls[k..]) ==
          LineAt(prev, n) + (if n.state.MigrateSucceeded? || n.state.MigrateFailed? then [] else ProgressLines(n, polls[k + 1..]))
      ensures polls[k].Ok? && !polls[k].value.state.MigrateSucceeded? && !polls[k].value.state.MigrateFailed? ==>
        PollEndOf(polls[k..]) == PollEndOf(polls[k + 1..])
    {
      assert polls[k..][0] == polls[k];
      assert polls[k..][1..] == polls[k + 1..];
    }

    /** One poll of the loop at position `k`, with `progress` printed before it. */
    lemma PollStep(first: Migration.Result, polls: seq<Result<Migration.Result>>, k: nat,
                   prev: Migration.Result, progress: seq<string>)
      requires k < |polls|
      requires progress + ProgressLines(prev, polls[k..]) == ProgressLines(first, polls)
      ensures polls[k].Err? ==> progress == ProgressLines(first, polls)
      ensures polls[k].Ok? && (polls[k].value.state.MigrateSucceeded? || polls[k].value.state.MigrateFailed?) ==>
        progress + LineAt(prev, polls[k].value) == ProgressLines(first, polls)
      ensures polls[k].Ok? && !polls[k].value.state.MigrateSucceeded? && !polls[k].value.state.MigrateFailed? ==>
        && (progress + LineAt(prev, polls[k].value)) + ProgressLines(polls[k].value, polls[k + 1..]) == ProgressLines(first, polls)
        && PollEndOf(polls[k..]) == PollEndOf(polls[k + 1..])
    {
      ProgressLinesAt(prev, polls, k);
      if polls[k].Ok? && !polls[k].value.state.MigrateSucceeded? && !polls[k].value.state.MigrateFailed? {
        Concat3(progress, LineAt(prev, polls[k].value), ProgressLines(polls[k].value, polls[k + 1..]));
      }
    }

    /** The poll loop of `migrateCloneSet` over the answers Query gives at successive
        polls (the workers run concurrently between polls). It prints a progress line for
        each poll whose counters differ from the poll before, and stops at the first
        error or terminal state. */
    method Poll(first: Migration.Result, polls: seq<Result<Migration.Result>>)
      returns (end: PollEnd, progress: seq<string>)
      ensures end == PollEndOf(polls)
      ensures progress == ProgressLines(first, polls)
      ensures |progress| <= |polls|
      // a run whose counters never move prints no progress
      ensures (forall i :: 0 <= i < |polls| && polls[i].Ok? ==> !Progressed(first, polls[i].value)) ==> progress == []
    {
      ProgressLinesBound(first, polls);
      if forall i :: 0 <= i < |polls| && polls[i].Ok? ==> !Progressed(first, polls[i].value) {
        ProgressLinesQuiet(first, polls);
      }
      var oldResult := first;
      var k := 0;
      progress := [];
      while k < |polls|
        invariant 0 <= k <= |polls|
        invariant PollEndOf(polls) == PollEndOf(polls[k..])
        invariant progress + ProgressLines(oldResult, polls[k..]) == ProgressLines(first, polls)
      {
        PollStep(first, polls, k, oldResult, progress);
        if polls[k].Err? {
          return Returned(Some(polls[k].error)), progress;
        }
        var newResult := polls[k].value;
        var line := LineAt(oldResult, newResult);
        if newResult.state.MigrateSucceeded? {
          return Returned(None), progress + line;
        } else if newResult.state.MigrateFailed? {
          return Returned(Some("failed to migrate: " + newResult.message)), progress + line;
        }
        progress := progress + line;
        oldResult := newResult;
        k := k + 1;
      }
      return StillPolling, progress;
    }

    /** `Run`: only the CloneSet destination is handled; anything else does nothing. */
    method Run(creation: CloneSetCreation.Control, migration: CloneSetMigration.Control,
               now: int, readError: Option<string>, createError: Option<string>,
               unavailable: set<GroupVersionKind>, polls: seq<Result<Migration.Result>>)
      returns (end: PollEnd)
      requires creation.Valid() && migration.Valid()
      modifies creation`cloneSets, migration
      ensures creation.Valid() && migration.Valid()
      ensures to != "CloneSet" ==> end == Returned(None) && creation.cloneSets == old(creation.cloneSets)
                                   && migration.tasks == old(migration.tasks)
      ensures to == "CloneSet" && isCreate ==>
        var plan := CloneSetCreation.CreatePlan(srcRef, dstRef, creation.deployments, old(creation.cloneSets), readError);
        && migration.tasks == old(migration.tasks)
        && end.Returned?
        && (plan.Err? ==> end == Returned(Some(plan.error)) && creation.cloneSets == old(creation.cloneSets))
        && (plan.Ok? ==>
              var key := NamespacedName(plan.value.meta.namespace, plan.value.meta.name);
              && (end == Returned(None) <==> key !in old(creation.cloneSets) && createError.None?)
              && creation.cloneSets == if end == Returned(None) then old(creation.cloneSets)[key := plan.value]
                                       else old(creation.cloneSets))
      ensures to == "CloneSet" && !isCreate ==>
        var v := CloneSetMigration.ValidateSubmit(srcRef, dstRef, MigrationOptionsFor(replicas, maxSurge, timeoutSeconds),
                                                  old(migration.deployments), old(migration.cloneSets),
                                                  old(migration.executingTasks));
        var handled := (DeploymentKind in old(migration.handledGVKs) || DeploymentKind !in unavailable)
                       && (CloneSetKind in old(migration.handledGVKs) || CloneSetKind !in unavailable);
        && creation.cloneSets == old(creation.cloneSets)
        && (v.Err? ==> end == Returned(Some(v.error)) && migration.tasks == old(migration.tasks))
        && (v.Ok? && !handled ==> end.Returned? && end.err.Some? && migration.tasks == old(migration.tasks))
        && (v.Ok? && handled ==>
              && end == PollEndOf(polls)
              && migration.tasks == old(migration.tasks)[old(migration.nextId) :=
                   CloneSetMigration.NewTask(old(migration.nextId), now, srcRef, dstRef, v.value)])
    {
      if to == "CloneSet" {
        end := MigrateCloneSet(creation, migration, now, readError, createError, unavailable, polls);
      } else {
        end := Returned(None);
      }
    }

    /** `migrateCloneSet`. */
    method MigrateCloneSet(creation: CloneSetCreation.Control, migration: CloneSetMigration.Control,
                           now: int, readError: Option<string>, createError: Option<string>,
                           unavailable: set<GroupVersionKind>, polls: seq<Result<Migration.Result>>)
      returns (end: PollEnd)
      requires creation.Valid() && migration.Valid()
      modifies creation`cloneSets, migration
      ensures creation.Valid() && migration.Valid()
      // with --create only the creation control runs, with CopyReplicas = --copy
      ensures isCreate ==>
        var plan := CloneSetCreation.CreatePlan(srcRef, dstRef, creation.deployments, old(creation.cloneSets), readError);
        && migration.tasks == old(migration.tasks)
        && end.Returned?
        && (plan.Err? ==> end == Returned(Some(plan.error)) && creation.cloneSets == old(creation.cloneSets))
        && (plan.Ok? ==>
              var key := NamespacedName(plan.value.meta.namespace, plan.value.meta.name);
              && (end == Returned(None) <==> key !in old(creation.cloneSets) && createError.None?)
              && creation.cloneSets == if end == Returned(None) then old(creation.cloneSets)[key := plan.value]
                                       else old(creation.cloneSets))
      // otherwise a refused Submit is returned at once; an accepted one records the task and
      // then the command ends as the poll loop does
      ensures !isCreate ==>
        var v := CloneSetMigration.ValidateSubmit(srcRef, dstRef, MigrationOptionsFor(replicas, maxSurge, timeoutSeconds),
                                                  old(migration.deployments), old(migration.cloneSets),
                                                  old(migration.executingTasks));
        var handled := (DeploymentKind in old(migration.handledGVKs) || DeploymentKind !in unavailable)
                       && (CloneSetKind in old(migration.handledGVKs) || CloneSetKind !in unavailable);
        && creation.cloneSets == old(creation.cloneSets)
        && (v.Err? ==> end == Returned(Some(v.error)) && migration.tasks == old(migration.tasks))
        && (v.Ok? && !handled ==> end.Returned? && end.err.Some? && migration.tasks == old(migration.tasks))
        && (v.Ok? && handled ==>
              && end == PollEndOf(polls)
              && migration.tasks == old(migration.tasks)[old(migration.nextId) :=
                   CloneSetMigration.NewTask(old(migration.nextId), now, srcRef, dstRef, v.value)])
    {
      if isCreate {
        var err := creation.Create(srcRef, dstRef, CreationOptions(isCopy), readError, createError);
        if err.Some? {
          return Returned(err);
        }
        return Returned(None);
      }
      var opts := MigrationOptionsFor(replicas, maxSurge, timeoutSeconds);
      var oldResult := migration.Submit(srcRef, dstRef, opts, now, unavailable);
      if oldResult.Err? {
        return Returned(Some(oldResult.error));
      }
      var progress;
      end, progress := Poll(oldResult.value, polls);
    }
  }
}
