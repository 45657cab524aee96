/** Rollout history views (pkg/internal/polymorphichelpers/history.go): which viewer a
    kind gets, the revision table built from ControllerRevisions, and the Deployment
    viewer built from ReplicaSets. A described pod template is returned as the template
    itself; the describer's text is not part of this model. */
module History {
  import opened Wrappers
  import opened Strings
  import opened Workloads

  const ChangeCauseAnnotation := "kubernetes.io/change-cause"
  const RevisionAnnotation := "deployment.kubernetes.io/revision"
  const NoHistoryMessage := "No rollout history found."
  const MissingRevisionError := "unable to find the specified revision"
  const OverviewHeader := "REVISION\tCHANGE-CAUSE\n"

  datatype ControllerRevision = ControllerRevision(name: string, revision: int, annotations: map<string, string>)
  datatype PodTemplate = PodTemplate(annotations: map<string, string>, spec: PodTemplateSpec)
  datatype ReplicaSet = ReplicaSet(name: string, annotations: map<string, string>, template: PodTemplate)

  /** What a viewer answers: the revision table, or the pod template of one revision
      (which the source hands to the pod-template describer). */
  datatype HistoryOutput = Overview(text: string) | Described(template: PodTemplate)

  /** A missing annotation reads as the empty string, as a Go map lookup does. */
  function Annotation(annotations: map<string, string>, key: string): string
  {
    if key in annotations then annotations[key] else ""
  }

  // ---------------------------------------------------------------- keyed by revision

  /** The map the source fills in a loop: every entry with a key is stored under it, so
      a later entry with the same key replaces an earlier one; entries without a key are
      skipped. */
  function LatestByKey<T>(xs: seq<T>, key: T -> Option<int>): map<int, T>
  {
    if xs == [] then map[]
    else
      var m := LatestByKey(xs[..|xs| - 1], key);
      match key(xs[|xs| - 1])
      case None => m
      case Some(k) => m[k := xs[|xs| - 1]]
  }

  /** Entry i is the last one with key k. */
  predicate LastWithKey<T>(xs: seq<T>, key: T -> Option<int>, k: int, i: int)
  {
    0 <= i < |xs| && key(xs[i]) == Some(k) && forall j :: i < j < |xs| ==> key(xs[j]) != Some(k)
  }

  /** A key is present iff some entry has it, and it holds the last such entry. */
  lemma {:induction false} LatestByKeyLaterWins<T>(xs: seq<T>, key: T -> Option<int>, k: int)
    ensures k in LatestByKey(xs, key) <==> exists i :: 0 <= i < |xs| && key(xs[i]) == Some(k)
    ensures k in LatestByKey(xs, key) ==> exists i :: LastWithKey(xs, key, k, i) && LatestByKey(xs, key)[k] == xs[i]
  {
    if xs != [] {
      var init := xs[..|xs| - 1];
      var n := |xs| - 1;
      LatestByKeyLaterWins(init, key, k);
      if key(xs[n]) == Some(k) {
        assert LastWithKey(xs, key, k, n);
      } else {
        if exists i :: 0 <= i < |xs| && key(xs[i]) == Some(k) {
          var i :| 0 <= i < |xs| && key(xs[i]) == Some(k);
          assert i < n && init[i] == xs[i];
        }
        if k in LatestByKey(xs, key) {
          var i :| LastWithKey(init, key, k, i) && LatestByKey(init, key)[k] == init[i];
          assert init[i] == xs[i];
          assert LastWithKey(xs, key, k, i);
        }
      }
    }
  }

  /** The key of a ControllerRevision: its revision number, always present. */
  function RevisionKey(h: ControllerRevision): Option<int> { Some(h.revision) }

  // ---------------------------------------------------------------- sorting revisions

  predicate Increasing(s: seq<int>) { forall i, j :: 0 <= i < j < |s| ==> s[i] < s[j] }

  /** A set of revisions that is not empty has an element. */
  lemma NonEmptyHasElement(s: set<int>)
    ensures s == {} || exists m :: m in s
  {
    if forall m :: m !in s {
      assert s == {};
    }
  }

  lemma {:induction false} IntMinExists(s: set<int>)
    requires s != {}
    ensures exists m :: m in s && forall x :: x in s ==> m <= x
  {
    NonEmptyHasElement(s);
    var y :| y in s;
    if s != {y} {
      var rest := s - {y};
      NonEmptyHasElement(rest);
      IntMinExists(rest);
      var m :| m in rest && forall x :: x in rest ==> m <= x;
      var least := if y < m then y else m;
      forall x | x in s ensures least <= x {
        if x != y { assert x in rest; }
      }
      assert least in s;
    } else {
      assert forall x :: x in s ==> y <= x;
    }
  }

  /** The least element of a non-empty set. */
  function MinOf(s: set<int>): (m: int)
    requires s != {}
    ensures m in s && forall x :: x in s ==> m <= x
  {
    IntMinExists(s);
    var m :| m in s && forall x :: x in s ==> m <= x;
    m
  }

  /** The revisions of a history in ascending order, each once. */
  function SortedInts(s: set<int>): (r: seq<int>)
    ensures |r| == |s|
    ensures forall x :: x in r <==> x in s
    ensures Increasing(r)
    decreases |s|
  {
    if s == {} then []
    else
      var m := MinOf(s);
      var rest := SortedInts(s - {m});
      assert forall i :: 0 <= i < |rest| ==> m < rest[i] by {
        forall i | 0 <= i < |rest| ensures m < rest[i] { assert rest[i] in s - {m}; }
      }
      [m] + rest
  }

  /** Dropping the least element of an increasing sequence drops it from its set. */
  lemma IncreasingTail(r: seq<int>, s: set<int>)
    requires Increasing(r) && r != []
    requires forall x :: x in r <==> x in s
    ensures Increasing(r[1..])
    ensures forall x :: x in r[1..] <==> x in s - {r[0]}
  {
    forall x ensures x in r[1..] <==> x in s - {r[0]} {
      if x in s - {r[0]} {
        var i :| 0 <= i < |r| && r[i] == x;
        assert r[1..][i - 1] == x;
      }
    }
  }

  /** An increasing sequence is determined by its elements. */
  lemma {:induction false} IncreasingIsSortedInts(r: seq<int>, s: set<int>)
    requires Increasing(r)
    requires forall x :: x in r <==> x in s
    ensures r == SortedInts(s)
    decreases |r|
  {
    NonEmptyHasElement(s);
    if r != [] {
      assert r[0] in r;
      var m := MinOf(s);
      var j :| 0 <= j < |r| && r[j] == m;
      assert r[0] == m;
      IncreasingTail(r, s);
      IncreasingIsSortedInts(r[1..], s - {m});
      assert r == [m] + r[1..];
    }
  }

  /** Inserting a new value into an increasing sequence. */
  function Insert(s: seq<int>, x: int): (r: seq<int>)
    requires Increasing(s) && x !in s
    ensures Increasing(r)
    ensures forall y :: y in r <==> y in s || y == x
    ensures |r| == |s| + 1
  {
    if s == [] then [x]
    else if x < s[0] then [x] + s
    else
      var tail := Insert(s[1..], x);
      assert forall i :: 0 <= i < |tail| ==> s[0] < tail[i] by {
        forall i | 0 <= i < |tail| ensures s[0] < tail[i] {
          assert tail[i] in tail;
          if tail[i] != x {
            var j :| 0 <= j < |s[1..]| && s[1..][j] == tail[i];
            assert s[j + 1] == tail[i];
          }
        }
      }
      [s[0]] + tail
  }

  predicate Distinct(s: seq<int>) { forall i, j :: 0 <= i < j < |s| ==> s[i] != s[j] }

  /** `sliceutil.SortInts64` on a slice of distinct revisions. */
  method SortRevisions(revisions: seq<int>) returns (sorted: seq<int>)
    requires Distinct(revisions)
    ensures Increasing(sorted)
    ensures forall x :: x in sorted <==> x in revisions
  {
    sorted := [];
    var i := 0;
    while i < |revisions|
      invariant 0 <= i <= |revisions|
      invariant Increasing(sorted)
      invariant forall x :: x in sorted <==> x in revisions[..i]
    {
      assert revisions[i] !in revisions[..i];
      sorted := Insert(sorted, revisions[i]);
      assert revisions[..i + 1] == revisions[..i] + [revisions[i]];
      i := i + 1;
    }
    assert revisions[..i] == revisions;
  }

  // ---------------------------------------------------------------- the revision table

  /** One table row: "%d\t%s\n" with "<none>" for an empty change cause. */
  function Row(revision: int, cause: string): string
  {
    IntToString(revision) + "\t" + (if cause == "" then "<none>" else cause) + "\n"
  }

  /** The rows for the given revisions, in that order. */
  function Rows(revisions: seq<int>, causes: map<int, string>): string
    requires forall r :: r in revisions ==> r in causes
  {
    if revisions == [] then ""
    else Rows(revisions[..|revisions| - 1], causes) + Row(revisions[|revisions| - 1], causes[revisions[|revisions| - 1]])
  }

  /** The table: the header, then one row per distinct revision in ascending order. */
  function OverviewText(causes: map<int, string>): string
  {
    OverviewHeader + Rows(SortedInts(causes.Keys), causes)
  }

  /** The revisions of the map, each once, in the map's iteration order. */
  method CollectRevisions(causes: map<int, string>) returns (revisions: seq<int>)
    ensures Distinct(revisions)
    ensures forall r :: r in revisions <==> r in causes
  {
    revisions := [];
    var remaining := causes.Keys;
    while remaining != {}
      invariant remaining <= causes.Keys
      invariant forall r :: r in revisions <==> r in causes && r !in remaining
      invariant Distinct(revisions)
      decreases |remaining|
    {
      NonEmptyHasElement(remaining);
      var r :| r in remaining;
      revisions := revisions + [r];
      remaining := remaining - {r};
    }
  }

  /** Writes one row per revision, in the given order. */
  method RenderRows(revisions: seq<int>, causes: map<int, string>) returns (text: string)
    requires forall r :: r in revisions ==> r in causes
    ensures text == Rows(revisions, causes)
  {
    text := "";
    var i := 0;
    while i < |revisions|
      invariant 0 <= i <= |revisions|
      invariant text == Rows(revisions[..i], causes)
    {
      assert revisions[..i + 1][..i] == revisions[..i];
      text := text + Row(revisions[i], causes[revisions[i]]);
      i := i + 1;
    }
    assert revisions[..i] == revisions;
  }

  /** Renders the revision table: collects the revisions from the map, sorts them and
      writes the header and one row each. */
  method RenderOverview(causes: map<int, string>) returns (text: string)
    ensures text == OverviewText(causes)
  {
    var revisions := CollectRevisions(causes);
    revisions := SortRevisions(revisions);
    IncreasingIsSortedInts(revisions, causes.Keys);
    var rows := RenderRows(revisions, causes);
    text := OverviewHeader + rows;
  }

  // ---------------------------------------------------------------- printHistory

  /** The change cause of each revision, read from the revision's own annotations. */
  function RevisionCauses(info: map<int, ControllerRevision>): map<int, string>
  {
    map r | r in info :: Annotation(info[r].annotations, ChangeCauseAnnotation)
  }

  /** What `printHistory` answers for a history, a requested revision and the template
      extractor of the workload kind. */
  function PrintHistorySpec(history: seq<ControllerRevision>, revision: int,
                            getPodTemplate: ControllerRevision -> Result<PodTemplate>): Result<HistoryOutput>
  {
    var info := LatestByKey(history, RevisionKey);
    if |info| == 0 then Ok(Overview(NoHistoryMessage))
    else if revision > 0 then
      if revision !in info then Err(MissingRevisionError)
      else match getPodTemplate(info[revision])
        case Err(_) => Err("unable to parse history " + info[revision].name)
        case Ok(t) => Ok(Described(t))
    else Ok(Overview(OverviewText(RevisionCauses(info))))
  }

  /** `printHistory`: fills the revision map, then answers. */
  method PrintHistory(history: seq<ControllerRevision>, revision: int,
                      getPodTemplate: ControllerRevision -> Result<PodTemplate>) returns (r: Result<HistoryOutput>)
    ensures r == PrintHistorySpec(history, revision, getPodTemplate)
  {
    var info: map<int, ControllerRevision> := map[];
    var i := 0;
    while i < |history|
      invariant 0 <= i <= |history|
      invariant info == LatestByKey(history[..i], RevisionKey)
    {
      assert history[..i + 1][..i] == history[..i];
      info := info[history[i].revision := history[i]];
      i := i + 1;
    }
    assert history[..i] == history;
    if |info| == 0 {
      return Ok(Overview(NoHistoryMessage));
    }
    if revision > 0 {
      if revision !in info {
        return Err(MissingRevisionError);
      }
      var h := info[revision];
      var template := getPodTemplate(h);
      if template.Err? {
        return Err("unable to parse history " + h.name);
      }
      return Ok(Described(template.value));
    }
    var text := RenderOverview(RevisionCauses(info));
    r := Ok(Overview(text));
  }

  /** The empty-history message is answered exactly when there are no revisions. */
  lemma EmptyHistoryMessage(history: seq<ControllerRevision>, revision: int,
                            getPodTemplate: ControllerRevision -> Result<PodTemplate>)
    ensures PrintHistorySpec(history, revision, getPodTemplate) == Ok(Overview(NoHistoryMessage)) <==> history == []
  {
    var info := LatestByKey(history, RevisionKey);
    if history != [] {
      LatestByKeyLaterWins(history, RevisionKey, history[0].revision);
      assert history[0].revision in info;
      if revision <= 0 {
        assert OverviewText(RevisionCauses(info))[..|OverviewHeader|] == OverviewHeader;
      }
    }
  }

  /** A positive revision that no entry carries is an error; one that some entries
      carry describes the template of the last of them, or names it when its template
      cannot be extracted. */
  lemma RevisionLookup(history: seq<ControllerRevision>, revision: int,
                       getPodTemplate: ControllerRevision -> Result<PodTemplate>)
    requires history != [] && revision > 0
    ensures (forall i :: 0 <= i < |history| ==> history[i].revision != revision) ==>
              PrintHistorySpec(history, revision, getPodTemplate) == Err(MissingRevisionError)
    ensures forall i :: LastWithKey(history, RevisionKey, revision, i) ==>
              PrintHistorySpec(history, revision, getPodTemplate) ==
                (match getPodTemplate(history[i])
                 case Err(_) => Err("unable to parse history " + history[i].name)
                 case Ok(t) => Ok(Described(t)))
  {
    LatestByKeyLaterWins(history, RevisionKey, history[0].revision);
    LatestByKeyLaterWins(history, RevisionKey, revision);
    forall i | LastWithKey(history, RevisionKey, revision, i)
      ensures LatestByKey(history, RevisionKey)[revision] == history[i]
    {
      var j :| LastWithKey(history, RevisionKey, revision, j) && LatestByKey(history, RevisionKey)[revision] == history[j];
    }
  }

  // ---------------------------------------------------------------- Deployment viewer

  /** `deploymentutil.Revision`: a missing revision annotation is revision 0, an
      unparsable one is skipped by the viewer. */
  function ReplicaSetRevision(rs: ReplicaSet): Option<int>
  {
    if RevisionAnnotation !in rs.annotations then Some(0) else Atoi(rs.annotations[RevisionAnnotation])
  }

  /** The template the viewer keeps for a ReplicaSet: a non-empty change cause of the
      ReplicaSet is copied into the template's annotations. */
  function TemplateWithCause(rs: ReplicaSet): (t: PodTemplate)
    ensures t.spec == rs.template.spec
    ensures Annotation(rs.annotations, ChangeCauseAnnotation) != "" ==>
              t.annotations == rs.template.annotations[ChangeCauseAnnotation := rs.annotations[ChangeCauseAnnotation]]
    ensures Annotation(rs.annotations, ChangeCauseAnnotation) == "" ==> t.annotations == rs.template.annotations
  {
    var cause := Annotation(rs.annotations, ChangeCauseAnnotation);
    if cause == "" then rs.template
    else rs.template.(annotations := rs.template.annotations[ChangeCauseAnnotation := cause])
  }

  function TemplatesOf(m: map<int, ReplicaSet>): map<int, PodTemplate>
  {
    map r | r in m :: TemplateWithCause(m[r])
  }

  function TemplateCauses(info: map<int, PodTemplate>): map<int, string>
  {
    map r | r in info :: Annotation(info[r].annotations, ChangeCauseAnnotation)
  }

  /** What the Deployment viewer answers for the Deployment's ReplicaSets (old ones,
      then the new one) and a requested revision. */
  function DeploymentHistorySpec(name: string, replicaSets: seq<ReplicaSet>, revision: int,
                                 deploymentError: Option<string>, replicaSetsError: Option<string>): Result<HistoryOutput>
  {
    if deploymentError.Some? then Err("failed to retrieve deployment " + name + ": " + deploymentError.value)
    else if replicaSetsError.Some? then Err("failed to retrieve replica sets from deployment " + name + ": " + replicaSetsError.value)
    else
      var info := TemplatesOf(LatestByKey(replicaSets, ReplicaSetRevision));
      if |info| == 0 then Ok(Overview(NoHistoryMessage))
      else if revision > 0 then
        if revision !in info then Err(MissingRevisionError) else Ok(Described(info[revision]))
      else Ok(Overview(OverviewText(TemplateCauses(info))))
  }

  /** `DeploymentHistoryViewer.ViewHistory` on the ReplicaSets the client returns. */
  method ViewDeploymentHistory(name: string, replicaSets: seq<ReplicaSet>, revision: int,
                               deploymentError: Option<string>, replicaSetsError: Option<string>)
    returns (r: Result<HistoryOutput>)
    ensures r == DeploymentHistorySpec(name, replicaSets, revision, deploymentError, replicaSetsError)
  {
    if deploymentError.Some? {
      return Err("failed to retrieve deployment " + name + ": " + deploymentError.value);
    }
    if replicaSetsError.Some? {
      return Err("failed to retrieve replica sets from deployment " + name + ": " + replicaSetsError.value);
    }
    var info: map<int, PodTemplate> := map[];
    var i := 0;
    while i < |replicaSets|
      invariant 0 <= i <= |replicaSets|
      invariant info == TemplatesOf(LatestByKey(replicaSets[..i], ReplicaSetRevision))
    {
      assert replicaSets[..i + 1][..i] == replicaSets[..i];
      var v := ReplicaSetRevision(replicaSets[i]);
      if v.Some? {
        var m := LatestByKey(replicaSets[..i], ReplicaSetRevision);
        assert TemplatesOf(m[v.value := replicaSets[i]]) == info[v.value := TemplateWithCause(replicaSets[i])];
        info := info[v.value := TemplateWithCause(replicaSets[i])];
      }
      i := i + 1;
    }
    assert replicaSets[..i] == replicaSets;
    if |info| == 0 {
      return Ok(Overview(NoHistoryMessage));
    }
    if revision > 0 {
      if revision !in info {
        return Err(MissingRevisionError);
      }
      return Ok(Described(info[revision]));
    }
    var text := RenderOverview(TemplateCauses(info));
    r := Ok(Overview(text));
  }

  /** ReplicaSets whose revision annotation does not parse are invisible to the viewer. */
  lemma UnparsableReplicaSetsSkipped(name: string, replicaSets: seq<ReplicaSet>, rs: ReplicaSet, revision: int)
    requires ReplicaSetRevision(rs) == None
    ensures DeploymentHistorySpec(name, replicaSets + [rs], revision, None, None)
            == DeploymentHistorySpec(name, replicaSets, revision, None, None)
  {
    assert (replicaSets + [rs])[..|replicaSets|] == replicaSets;
  }

  // ---------------------------------------------------------------- HistoryViewerFor

  /** The kinds whose visit method the group-kind element calls. */
  datatype VisitedKind = DeploymentKind | StatefulSetKind | DaemonSetKind | JobKind | PodKind
                       | ReplicaSetKind | ReplicationControllerKind | CronJobKind | RolloutKind
                       | CloneSetKind | AdvancedStatefulSetKind | AdvancedDaemonSetKind

  datatype Viewer = DeploymentViewer | StatefulSetViewer | DaemonSetViewer
                  | CloneSetViewer | AdvancedStatefulSetViewer | AdvancedDaemonSetViewer

  /** The viewer each visit method installs; the six listed kinds install one, the rest none. */
  function ViewerOf(kind: VisitedKind): (v: Option<Viewer>)
    ensures v.None? <==> kind in {JobKind, PodKind, ReplicaSetKind, ReplicationControllerKind, CronJobKind, RolloutKind}
  {
    match kind
    case DeploymentKind => Some(DeploymentViewer)
    case StatefulSetKind => Some(StatefulSetViewer)
    case DaemonSetKind => Some(DaemonSetViewer)
    case CloneSetKind => Some(CloneSetViewer)
    case AdvancedStatefulSetKind => Some(AdvancedStatefulSetViewer)
    case AdvancedDaemonSetKind => Some(AdvancedDaemonSetViewer)
    case _ => None
  }

  /** `HistoryVisitor`: a visit method records the viewer for its kind. */
  class HistoryVisitor {
    var result: Option<Viewer>

    constructor ()
      ensures result == None
    {
      result := None;
    }

    method Visit(kind: VisitedKind)
      modifies this
      ensures result == (if ViewerOf(kind).Some? then ViewerOf(kind) else old(result))
    {
      if ViewerOf(kind).Some? {
        result := ViewerOf(kind);
      }
    }
  }

  /** `schema.GroupKind.String()`: "Kind.group", or the kind alone for the core group. */
  function GroupKindString(group: string, kind: string): string
  {
    if group == "" then kind else kind + "." + group
  }

  function Quote(s: string): string { "\"" + s + "\"" }

  /** `HistoryViewerFor`. `accepted` is what the group-kind element's Accept does: the
      visit method it calls, or its error. */
  method HistoryViewerFor(group: string, kind: string, accepted: Result<VisitedKind>) returns (r: Result<Viewer>)
    ensures accepted.Err? ==>
              r == Err("error retrieving history for " + Quote(GroupKindString(group, kind)) + ", " + accepted.error)
    ensures accepted.Ok? && ViewerOf(accepted.value).None? ==>
              r == Err("no history viewer has been implemented for " + Quote(GroupKindString(group, kind)))
    ensures accepted.Ok? && ViewerOf(accepted.value).Some? ==> r == Ok(ViewerOf(accepted.value).value)
  {
    var visitor := new HistoryVisitor();
    if accepted.Err? {
      return Err("error retrieving history for " + Quote(GroupKindString(group, kind)) + ", " + accepted.error);
    }
    visitor.Visit(accepted.value);
    if visitor.result.None? {
      return Err("no history viewer has been implemented for " + Quote(GroupKindString(group, kind)));
    }
    r := Ok(visitor.result.value);
  }
}
