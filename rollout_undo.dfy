/** `kubectl-kruise rollout undo` (pkg/cmd/rollout/rollout_undo.go): argument checks, the
    fast-rollback patch loop, and the two visiting passes of RunUndo that undo each
    workload at most once, Rollout arguments standing for the workload they reference.
    Resolving arguments to objects and rolling a workload back are done by client
    libraries; their outcomes are parameters here. */
module RolloutUndo {
  import opened Wrappers
  import opened Strings
  import opened Api
  import opened CmdUtil

  const RolloutGroup := "rollouts.kruise.io"
  const RolloutKindName := "Rollout"
  const RolloutNotFoundError := "Rollout object not found"
  const UnsupportedRolloutError := "unsupported version of Rollout"
  const MissingResourceError := "required resource not specified"

  // ---------------------------------------------------------------- Validate

  /** `UndoOptions.Validate`: there must be resource arguments or files (or a
      kustomize directory). */
  function Validate(resources: seq<string>, filenames: seq<string>, kustomize: string): (r: Option<string>)
    ensures r.Some? <==> resources == [] && filenames == [] && kustomize == ""
    ensures r.Some? ==> r.value == MissingResourceError
  {
    if |resources| == 0 && |filenames| == 0 && |kustomize| == 0 then Some(MissingResourceError) else None
  }

  // ---------------------------------------------------------------- workload references

  datatype WorkloadRef = WorkloadRef(apiVersion: string, kind: string, name: string)

  /** The object behind a Rollout argument: one of the two Rollout API versions, or an
      object of some other Go type. */
  datatype RolloutObject = RolloutV1alpha1(objectRefWorkloadRef: WorkloadRef)
                         | RolloutV1beta1(specWorkloadRef: WorkloadRef)
                         | OtherObject

  /** `getWorkloadRefFromRollout`: v1alpha1 keeps the workload in its object reference,
      v1beta1 in its spec; any other type is unsupported. */
  function GetWorkloadRefFromRollout(obj: RolloutObject): (r: Result<WorkloadRef>)
    ensures r.Err? <==> obj.OtherObject?
    ensures r.Err? ==> r.error == UnsupportedRolloutError
    ensures obj.RolloutV1alpha1? ==>
              (r.Ok? && r.value.kind == obj.objectRefWorkloadRef.kind
               && r.value.apiVersion == obj.objectRefWorkloadRef.apiVersion && r.value.name == obj.objectRefWorkloadRef.name)
    ensures obj.RolloutV1beta1? ==> r == Ok(obj.specWorkloadRef)
  {
    match obj
    case RolloutV1alpha1(ref) => Ok(WorkloadRef(ref.apiVersion, ref.kind, ref.name))
    case RolloutV1beta1(ref) => Ok(ref)
    case OtherObject => Err(UnsupportedRolloutError)
  }

  // ---------------------------------------------------------------- the visiting passes

  /** A resolved argument: the GroupVersionKind of its mapping, its name, and its object
      (None for a nil object). */
  datatype Info = Info(gvk: GroupVersionKind, name: string, obj: Option<RolloutObject>)

  /** What the resource visitor hands the callback: an info, or the error resolving it. */
  datatype Visited = Resolved(info: Info) | ResolveError(error: string)

  /** The de-duplication key "Kind.Version.Group/Name". */
  function DedupKey(kind: string, version: string, group: string, name: string): string
  {
    kind + "." + version + "." + group + "/" + name
  }

  predicate IsRollout(info: Info)
  {
    info.gvk.group == RolloutGroup && info.gvk.kind == RolloutKindName
  }

  /** What the first pass makes of one visited item: a workload to undo now, a
      workload referenced by a Rollout to undo in the second pass, or an error. */
  datatype Contribution = UndoNow(key: string) | Defer(key: string) | Fail(error: string)

  function ContributionOf(v: Visited): (c: Contribution)
    ensures c.UndoNow? <==> v.Resolved? && !IsRollout(v.info)
    ensures c.UndoNow? ==> c.key == DedupKey(v.info.gvk.kind, v.info.gvk.version, v.info.gvk.group, v.info.name)
    ensures v.Resolved? && IsRollout(v.info) && v.info.obj.None? ==> c == Fail(RolloutNotFoundError)
    ensures c.Defer? ==>
              (v.Resolved? && IsRollout(v.info) && v.info.obj.Some?
               && var ref := GetWorkloadRefFromRollout(v.info.obj.value);
                  ref.Ok? && ParseGroupVersion(ref.value.apiVersion).Ok?
                  && var gv := ParseGroupVersion(ref.value.apiVersion).value;
                     c.key == DedupKey(ref.value.kind, gv.version, gv.group, ref.value.name))
  {
    match v
    case ResolveError(e) => Fail(e)
    case Resolved(info) =>
      if IsRollout(info) then
        match info.obj
        case None => Fail(RolloutNotFoundError)
        case Some(obj) =>
          match GetWorkloadRefFromRollout(obj)
          case Err(e) => Fail(e)
          case Ok(ref) =>
            match ParseGroupVersion(ref.apiVersion)
            case Err(e) => Fail(e)
            case Ok(gv) => Defer(DedupKey(ref.kind, gv.version, gv.group, ref.name))
      else UndoNow(DedupKey(info.gvk.kind, info.gvk.version, info.gvk.group, info.name))
  }

  /** The workload key a contribution stands for, if any. */
  function KeyOf(c: Contribution): Option<string>
  {
    if c.Fail? then None else Some(c.key)
  }

  /** The workload key item i stands for, if any. */
  function KeyAt(items: seq<Visited>, i: int): Option<string>
    requires 0 <= i < |items|
  {
    KeyOf(ContributionOf(items[i]))
  }

  /** Item i is the first to stand for workload k. */
  predicate FirstKeyAt(items: seq<Visited>, k: string, i: int)
  {
    0 <= i < |items| && KeyAt(items, i) == Some(k) && forall j :: 0 <= j < i ==> KeyAt(items, j) != Some(k)
  }

  /** The state the first pass builds: the de-duplication set, the workloads handed to
      the undo function, the keys collected from Rollouts, and the callback errors. */
  datatype Pass = Pass(seen: set<string>, undone: seq<string>, refs: seq<string>, errors: seq<string>)

  /** One call of the visitor callback. `undoError` is the outcome of undoing a workload. */
  function VisitStep(p: Pass, v: Visited, undoError: string -> Option<string>): Pass
  {
    match ContributionOf(v)
    case Fail(e) => p.(errors := p.errors + [e])
    case UndoNow(k) =>
      if k in p.seen then p
      else
        var q := p.(seen := p.seen + {k}, undone := p.undone + [k]);
        if undoError(k).Some? then q.(errors := q.errors + [undoError(k).value]) else q
    case Defer(k) =>
      if k in p.seen then p else p.(seen := p.seen + {k}, refs := p.refs + [k])
  }

  /** The first pass over all items, in order. */
  function FirstPass(items: seq<Visited>, undoError: string -> Option<string>): Pass
  {
    if items == [] then Pass({}, [], [], [])
    else VisitStep(FirstPass(items[..|items| - 1], undoError), items[|items| - 1], undoError)
  }

  predicate NoRepeats(s: seq<string>)
  {
    forall i, j :: 0 <= i < j < |s| ==> s[i] != s[j]
  }

  /** What the de-duplication set guarantees: it holds exactly the workloads handed
      to the undo function or collected from Rollouts, and no workload is among them
      twice. */
  ghost predicate PassInvariant(p: Pass)
  {
    (forall k :: k in p.seen <==> k in p.undone || k in p.refs) && NoRepeats(p.undone + p.refs)
  }

  lemma NoRepeatsInsert(a: seq<string>, b: seq<string>, k: string)
    requires NoRepeats(a + b) && k !in a && k !in b
    ensures NoRepeats(a + [k] + b)
  {
    var s := a + [k] + b;
    forall i, j | 0 <= i < j < |s| ensures s[i] != s[j] {
      if i == |a| {
        assert s[j] == b[j - |a| - 1];
      } else if j == |a| {
        assert s[i] == a[i];
      } else {
        var i' := if i < |a| then i else i - 1;
        var j' := if j < |a| then j else j - 1;
        assert s[i] == (a + b)[i'] && s[j] == (a + b)[j'];
      }
    }
  }

  /** Each callback keeps the de-duplication invariant. */
  lemma VisitStepKeepsInvariant(p: Pass, v: Visited, undoError: string -> Option<string>)
    requires PassInvariant(p)
    ensures PassInvariant(VisitStep(p, v, undoError))
  {
    var c := ContributionOf(v);
    if !c.Fail? && c.key !in p.seen {
      if c.UndoNow? {
        NoRepeatsInsert(p.undone, p.refs, c.key);
        assert p.undone + [c.key] + p.refs == (p.undone + [c.key]) + p.refs;
      } else {
        NoRepeatsInsert(p.undone + p.refs, [], c.key);
        assert p.undone + p.refs + [c.key] + [] == p.undone + (p.refs + [c.key]);
      }
    }
  }

  lemma {:induction false} FirstPassInvariant(items: seq<Visited>, undoError: string -> Option<string>)
    ensures PassInvariant(FirstPass(items, undoError))
  {
    if items != [] {
      FirstPassInvariant(items[..|items| - 1], undoError);
      VisitStepKeepsInvariant(FirstPass(items[..|items| - 1], undoError), items[|items| - 1], undoError);
    }
  }

  /** One callback adds to the de-duplication set exactly the key of its item. */
  lemma VisitStepSeen(p: Pass, v: Visited, undoError: string -> Option<string>, k: string)
    ensures k in VisitStep(p, v, undoError).seen <==> k in p.seen || KeyOf(ContributionOf(v)) == Some(k)
  {
  }

  /** The first pass has seen exactly the workloads the items stand for. */
  lemma {:induction false} FirstPassSeen(items: seq<Visited>, undoError: string -> Option<string>)
    ensures forall k :: k in FirstPass(items, undoError).seen <==> exists i :: 0 <= i < |items| && KeyAt(items, i) == Some(k)
  {
    if items != [] {
      var n := |items| - 1;
      var init := items[..n];
      FirstPassSeen(init, undoError);
      var p0 := FirstPass(init, undoError);
      assert FirstPass(items, undoError) == VisitStep(p0, items[n], undoError);
      forall i | 0 <= i < n ensures KeyAt(items, i) == KeyAt(init, i) {
        assert items[i] == init[i];
      }
      forall k ensures k in FirstPass(items, undoError).seen <==> exists i :: 0 <= i < |items| && KeyAt(items, i) == Some(k) {
        VisitStepSeen(p0, items[n], undoError, k);
        assert KeyAt(items, n) == KeyOf(ContributionOf(items[n]));
        if k in p0.seen {
          var i :| 0 <= i < n && KeyAt(init, i) == Some(k);
          assert KeyAt(items, i) == Some(k);
        }
        if exists i :: 0 <= i < |items| && KeyAt(items, i) == Some(k) {
          var i :| 0 <= i < |items| && KeyAt(items, i) == Some(k);
          if i < n {
            assert KeyAt(init, i) == Some(k);
          }
        }
      }
    }
  }

  /** One callback hands a workload to the undo function, or collects it, only when it
      is the item's own key and has not been seen. */
  lemma VisitStepKeys(p: Pass, v: Visited, undoError: string -> Option<string>, k: string)
    ensures k in VisitStep(p, v, undoError).undone <==> k in p.undone || (ContributionOf(v) == UndoNow(k) && k !in p.seen)
    ensures k in VisitStep(p, v, undoError).refs <==> k in p.refs || (ContributionOf(v) == Defer(k) && k !in p.seen)
  {
  }

  /** Which item is the first to stand for `k`, seen from all items and from all but
      the last. */
  lemma FirstKeyAtPrefix(items: seq<Visited>, init: seq<Visited>, k: string)
    requires items != [] && init == items[..|items| - 1]
    ensures forall i :: 0 <= i < |init| ==> (FirstKeyAt(items, k, i) <==> FirstKeyAt(init, k, i))
    ensures FirstKeyAt(items, k, |init|) <==>
              KeyAt(items, |init|) == Some(k) && forall j :: 0 <= j < |init| ==> KeyAt(init, j) != Some(k)
  {
    forall i | 0 <= i < |items| - 1 ensures KeyAt(items, i) == KeyAt(init, i) {
      assert items[i] == init[i];
    }
  }

  /** The first occurrence of a key wins: a workload is handed to the undo function iff
      the first item standing for it is a workload argument, and collected for the
      second pass iff that first item is a Rollout. */
  lemma {:induction false} FirstOccurrenceWins(items: seq<Visited>, undoError: string -> Option<string>, k: string)
    ensures k in FirstPass(items, undoError).undone <==>
              exists i :: FirstKeyAt(items, k, i) && ContributionOf(items[i]).UndoNow?
    ensures k in FirstPass(items, undoError).refs <==>
              exists i :: FirstKeyAt(items, k, i) && ContributionOf(items[i]).Defer?
  {
    if items != [] {
      var n := |items| - 1;
      var init := items[..n];
      var p0 := FirstPass(init, undoError);
      FirstOccurrenceWins(init, undoError, k);
      FirstPassSeen(init, undoError);
      FirstKeyAtPrefix(items, init, k);
      VisitStepKeys(p0, items[n], undoError, k);
      assert FirstPass(items, undoError) == VisitStep(p0, items[n], undoError);
      var c := ContributionOf(items[n]);
      if KeyAt(items, n) == Some(k) && k !in p0.seen {
        assert FirstKeyAt(items, k, n);
        assert c == UndoNow(k) || c == Defer(k);
        forall i | FirstKeyAt(items, k, i) ensures i == n { }
      } else {
        assert !FirstKeyAt(items, k, n) by {
          if KeyAt(items, n) == Some(k) {
            var j :| 0 <= j < n && KeyAt(init, j) == Some(k);
          }
        }
        forall i | FirstKeyAt(items, k, i) ensures i < n && FirstKeyAt(init, k, i) && items[i] == init[i] {
          assert items[i] == init[i];
        }
        forall i | FirstKeyAt(init, k, i) ensures FirstKeyAt(items, k, i) && items[i] == init[i] {
          assert items[i] == init[i];
        }
        assert !(c == UndoNow(k) && k !in p0.seen) && !(c == Defer(k) && k !in p0.seen);
      }
    }
  }

  /** The errors of undoing the given workloads, in order. */
  function UndoErrors(keys: seq<string>, undoError: string -> Option<string>): seq<string>
  {
    if keys == [] then []
    else
      UndoErrors(keys[..|keys| - 1], undoError)
      + (if undoError(keys[|keys| - 1]).Some? then [undoError(keys[|keys| - 1]).value] else [])
  }

  /** What RunUndo does: the workloads handed to the undo function, in order, and the
      messages of the errors it aggregates. `buildError` and `secondBuildError` are the
      resource builders' own errors for the arguments and for the collected keys. */
  datatype Outcome = Outcome(undone: seq<string>, errors: seq<string>)

  function RunUndoSpec(items: seq<Visited>, buildError: Option<string>, undoError: string -> Option<string>,
                       secondBuildError: Option<string>): Outcome
  {
    if buildError.Some? then Outcome([], [buildError.value])
    else
      var p := FirstPass(items, undoError);
      if |p.refs| < 1 then Outcome(p.undone, p.errors)
      else if secondBuildError.Some? then Outcome(p.undone, p.errors + [secondBuildError.value])
      else Outcome(p.undone + p.refs, p.errors + UndoErrors(p.refs, undoError))
  }

  /** `RunUndo`: the first visiting pass with its de-duplication set, then, if Rollouts
      contributed workloads, the second pass over them. */
  method RunUndo(items: seq<Visited>, buildError: Option<string>, undoError: string -> Option<string>,
                 secondBuildError: Option<string>) returns (undone: seq<string>, errors: seq<string>)
    ensures Outcome(undone, errors) == RunUndoSpec(items, buildError, undoError, secondBuildError)
  {
    if buildError.Some? {
      return [], [buildError.value];
    }
    var deDuplica: set<string> := {};
    var refResources: seq<string> := [];
    undone, errors := [], [];
    var i := 0;
    while i < |items|
      invariant 0 <= i <= |items|
      invariant Pass(deDuplica, undone, refResources, errors) == FirstPass(items[..i], undoError)
    {
      assert items[..i + 1][..i] == items[..i];
      var c := ContributionOf(items[i]);
      match c {
        case Fail(e) =>
          errors := errors + [e];
        case UndoNow(k) =>
          if k !in deDuplica {
            deDuplica := deDuplica + {k};
            undone := undone + [k];
            var e := undoError(k);
            if e.Some? {
              errors := errors + [e.value];
            }
          }
        case Defer(k) =>
          if k !in deDuplica {
            deDuplica := deDuplica + {k};
            refResources := refResources + [k];
          }
      }
      i := i + 1;
    }
    assert items[..i] == items;
    if |refResources| < 1 {
      return;
    }
    if secondBuildError.Some? {
      errors := errors + [secondBuildError.value];
      return;
    }
    var j := 0;
    var secondErrors: seq<string> := [];
    while j < |refResources|
      invariant 0 <= j <= |refResources|
      invariant secondErrors == UndoErrors(refResources[..j], undoError)
    {
      assert refResources[..j + 1][..j] == refResources[..j];
      var e := undoError(refResources[j]);
      if e.Some? {
        secondErrors := secondErrors + [e.value];
      }
      j := j + 1;
    }
    assert refResources[..j] == refResources;
    undone := undone + refResources;
    errors := errors + secondErrors;
  }

  /** Each workload is undone at most once per command, across both passes, and only
      workloads some argument stands for are undone. */
  lemma UndoneAtMostOnce(items: seq<Visited>, buildError: Option<string>, undoError: string -> Option<string>,
                         secondBuildError: Option<string>)
    ensures NoRepeats(RunUndoSpec(items, buildError, undoError, secondBuildError).undone)
    ensures forall k :: k in RunUndoSpec(items, buildError, undoError, secondBuildError).undone ==>
              exists i :: 0 <= i < |items| && KeyAt(items, i) == Some(k)
  {
    FirstPassSeen(items, undoError);
    FirstPassInvariant(items, undoError);
    var p := FirstPass(items, undoError);
    var s := p.undone + p.refs;
    if buildError.None? && |p.refs| >= 1 && secondBuildError.Some? {
      forall i, j | 0 <= i < j < |p.undone| ensures p.undone[i] != p.undone[j] {
        assert s[i] == p.undone[i] && s[j] == p.undone[j];
      }
    } else if buildError.None? && |p.refs| < 1 {
      forall i, j | 0 <= i < j < |p.undone| ensures p.undone[i] != p.undone[j] {
        assert s[i] == p.undone[i] && s[j] == p.undone[j];
      }
    }
    forall k | k in RunUndoSpec(items, buildError, undoError, secondBuildError).undone
      ensures exists i :: 0 <= i < |items| && KeyAt(items, i) == Some(k)
    {
      assert k in p.seen;
    }
  }

  /** Without Rollout arguments there is no second pass: only the first pass's
      errors are returned. */
  lemma NoRolloutsOnePass(items: seq<Visited>, undoError: string -> Option<string>, secondBuildError: Option<string>)
    requires forall i :: 0 <= i < |items| ==> !ContributionOf(items[i]).Defer?
    ensures RunUndoSpec(items, None, undoError, secondBuildError) ==
              Outcome(FirstPass(items, undoError).undone, FirstPass(items, undoError).errors)
  {
    var p := FirstPass(items, undoError);
    if |p.refs| >= 1 {
      FirstOccurrenceWins(items, undoError, p.refs[0]);
    }
  }

  // ---------------------------------------------------------------- FastUndo

  /** One computed fast-rollback patch: the resource and group of the info's mapping,
      the info's name, the error computing the patch or the patch, and the server's
      answer if it were sent. */
  datatype FastPatch = FastPatch(resource: string, group: string, name: string,
                                 patchError: Option<string>, patch: string, serverError: Option<string>)

  datatype PatchOutcome = AlreadyRolledBack(name: string) | RolledBack(name: string) | PatchFailed(message: string)

  function ResourceString(p: FastPatch): string
  {
    if |p.group| > 0 then p.resource + "." + p.group else p.resource
  }

  /** What FastUndo does with one patch. */
  function PatchOutcomeOf(p: FastPatch): PatchOutcome
  {
    if p.patchError.Some? then PatchFailed("error: " + ResourceString(p) + " \"" + p.name + "\" " + p.patchError.value)
    else if NoChange(p.patch) then AlreadyRolledBack(p.name)
    else if p.serverError.Some? then PatchFailed("failed to patch: " + p.serverError.value)
    else RolledBack(p.name)
  }

  /** `FastUndo` over the computed patches: the outcome of each, and the names of the
      objects a patch was sent for. */
  method FastUndo(buildError: Option<string>, infosError: Option<string>, patches: seq<FastPatch>)
    returns (outcomes: seq<PatchOutcome>, sent: seq<string>, errors: seq<string>)
    ensures buildError.Some? ==> outcomes == [] && sent == [] && errors == [buildError.value]
    ensures buildError.None? ==>
              (|outcomes| == |patches| && forall i :: 0 <= i < |patches| ==> outcomes[i] == PatchOutcomeOf(patches[i]))
    ensures buildError.None? ==> sent == SentNames(patches)
    ensures buildError.None? ==>
              errors == (if infosError.Some? then [infosError.value] else []) + FailureMessages(patches)
  {
    if buildError.Some? {
      return [], [], [buildError.value];
    }
    outcomes, sent, errors := UndoPatches(if infosError.Some? then [infosError.value] else [], patches);
    OutcomesSpec(patches);
  }

  /** The loop of `FastUndo` over the patches, after the errors in `first`. */
  method UndoPatches(first: seq<string>, patches: seq<FastPatch>)
    returns (outcomes: seq<PatchOutcome>, sent: seq<string>, errors: seq<string>)
    ensures outcomes == Outcomes(patches)
    ensures sent == SentNames(patches)
    ensures errors == first + FailureMessages(patches)
  {
    errors := first;
    outcomes, sent := [], [];
    for i := 0 to |patches|
      invariant outcomes == Outcomes(patches[..i])
      invariant sent == SentNames(patches[..i])
      invariant errors == first + FailureMessages(patches[..i])
    {
      FastUndoStep(patches, i);
      var o := PatchOutcomeOf(patches[i]);
      if patches[i].patchError.None? && !NoChange(patches[i].patch) {
        sent := sent + [patches[i].name];
      }
      if o.PatchFailed? {
        assert errors + [o.message] == first + (FailureMessages(patches[..i]) + [o.message]);
        errors := errors + [o.message];
      }
      outcomes := outcomes + [o];
    }
    assert patches[..|patches|] == patches;
  }

  /** The outcome of every patch, in order. */
  function Outcomes(patches: seq<FastPatch>): seq<PatchOutcome>
  {
    if patches == [] then [] else Outcomes(patches[..|patches| - 1]) + [PatchOutcomeOf(patches[|patches| - 1])]
  }

  /** There is one outcome per patch, at the patch's position. */
  lemma {:induction false} OutcomesSpec(patches: seq<FastPatch>)
    ensures |Outcomes(patches)| == |patches|
    ensures forall i :: 0 <= i < |patches| ==> Outcomes(patches)[i] == PatchOutcomeOf(patches[i])
  {
    if patches != [] {
      var n := |patches| - 1;
      OutcomesSpec(patches[..n]);
      forall i | 0 <= i < n ensures Outcomes(patches)[i] == PatchOutcomeOf(patches[i]) {
        assert patches[..n][i] == patches[i];
      }
    }
  }

  /** One patch more: its outcome is added, its name is sent, and its message
      reported, as its outcome says. */
  lemma FastUndoStep(patches: seq<FastPatch>, i: int)
    requires 0 <= i < |patches|
    ensures var p, o := patches[i], PatchOutcomeOf(patches[i]);
      && Outcomes(patches[..i + 1]) == Outcomes(patches[..i]) + [o]
      && SentNames(patches[..i + 1]) == SentNames(patches[..i]) + (if p.patchError.None? && !NoChange(p.patch) then [p.name] else [])
      && FailureMessages(patches[..i + 1]) == FailureMessages(patches[..i]) + (if o.PatchFailed? then [o.message] else [])
  {
    assert patches[..i + 1][..i] == patches[..i];
  }

  /** The names of the objects whose patch is sent to the server. */
  function SentNames(patches: seq<FastPatch>): seq<string>
  {
    if patches == [] then []
    else
      var p := patches[|patches| - 1];
      SentNames(patches[..|patches| - 1]) + (if p.patchError.None? && !NoChange(p.patch) then [p.name] else [])
  }

  /** The messages of the patches that fail, in patch order. */
  function FailureMessages(patches: seq<FastPatch>): seq<string>
  {
    if patches == [] then []
    else
      var o := PatchOutcomeOf(patches[|patches| - 1]);
      FailureMessages(patches[..|patches| - 1]) + (if o.PatchFailed? then [o.message] else [])
  }

  /** A message is reported exactly when some patch fails with it, and there is at most
      one message per patch. */
  lemma {:induction false} FailureMessagesSpec(patches: seq<FastPatch>, m: string)
    ensures |FailureMessages(patches)| <= |patches|
    ensures m in FailureMessages(patches) <==>
              exists i :: 0 <= i < |patches| && PatchOutcomeOf(patches[i]) == PatchFailed(m)
  {
    if patches != [] {
      var n := |patches| - 1;
      var init := patches[..n];
      FailureMessagesSpec(init, m);
      if m in FailureMessages(init) {
        var i :| 0 <= i < |init| && PatchOutcomeOf(init[i]) == PatchFailed(m);
        assert PatchOutcomeOf(patches[i]) == PatchFailed(m);
      }
      if exists i :: 0 <= i < |patches| && PatchOutcomeOf(patches[i]) == PatchFailed(m) {
        var i :| 0 <= i < |patches| && PatchOutcomeOf(patches[i]) == PatchFailed(m);
        if i < n {
          assert PatchOutcomeOf(init[i]) == PatchFailed(m);
        }
      }
    }
  }

  /** An empty or "{}" patch is reported as already rolled back and never sent. */
  lemma {:induction false} NoChangePatchNotSent(patches: seq<FastPatch>, name: string)
    requires forall i :: 0 <= i < |patches| && patches[i].name == name ==> NoChange(patches[i].patch)
    ensures name !in SentNames(patches)
    ensures forall i :: 0 <= i < |patches| && patches[i].name == name && patches[i].patchError.None? ==>
              PatchOutcomeOf(patches[i]) == AlreadyRolledBack(name)
  {
    if patches != [] {
      var n := |patches| - 1;
      forall i | 0 <= i < n && patches[..n][i].name == name ensures NoChange(patches[..n][i].patch) {
        assert patches[..n][i] == patches[i];
      }
      NoChangePatchNotSent(patches[..n], name);
    }
  }
}
