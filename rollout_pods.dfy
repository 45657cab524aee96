/** Sorting the pods of a CloneSet by revision and readiness for the rollout status
    display (pkg/internal/polymorphichelpers/rollout_utils.go). The pods are those the
    API server lists for the CloneSet's namespace and match-labels. */
module RolloutPods {
  import opened Wrappers
  import opened Strings

  datatype PodCondition = PodCondition(conditionType: string, status: string)
  datatype Pod = Pod(name: string, namespace: string, labels: map<string, string>, conditions: seq<PodCondition>)

  /** The parts of a CloneSet the helpers read. The selector's match expressions are
      kept only to show that nothing reads them. */
  datatype CloneSetView = CloneSetView(namespace: string, matchLabels: map<string, string>,
                                       matchExpressions: seq<string>, updateRevision: string)

  const PodReadyCondition := "Ready"
  const ConditionTrue := "True"
  const RevisionLabel := "controller-revision-hash"

  /** `podReady`: the status of the first Ready condition; false without one. */
  function PodReady(conditions: seq<PodCondition>): bool
  {
    if conditions == [] then false
    else if conditions[0].conditionType == PodReadyCondition then conditions[0].status == ConditionTrue
    else PodReady(conditions[1..])
  }

  /** Condition i is the first Ready condition. */
  predicate FirstReadyAt(conditions: seq<PodCondition>, i: int)
  {
    0 <= i < |conditions| && conditions[i].conditionType == PodReadyCondition
    && forall j :: 0 <= j < i ==> conditions[j].conditionType != PodReadyCondition
  }

  /** A pod is ready iff it has a first Ready condition and that condition is True. */
  lemma {:induction false} PodReadyFirstCondition(conditions: seq<PodCondition>)
    ensures PodReady(conditions) <==> exists i :: FirstReadyAt(conditions, i) && conditions[i].status == ConditionTrue
  {
    if conditions == [] {
    } else if conditions[0].conditionType == PodReadyCondition {
      assert FirstReadyAt(conditions, 0);
      forall i | FirstReadyAt(conditions, i) ensures i == 0 {
      }
    } else {
      var rest := conditions[1..];
      PodReadyFirstCondition(rest);
      forall i | FirstReadyAt(rest, i) ensures FirstReadyAt(conditions, i + 1) {
        forall j | 0 <= j < i + 1 ensures conditions[j].conditionType != PodReadyCondition {
          if j > 0 { assert conditions[j] == rest[j - 1]; }
        }
      }
      forall i | FirstReadyAt(conditions, i) ensures i > 0 && FirstReadyAt(rest, i - 1) {
        forall j | 0 <= j < i - 1 ensures rest[j].conditionType != PodReadyCondition {
          assert rest[j] == conditions[j + 1];
        }
      }
      if PodReady(conditions) {
        var i :| FirstReadyAt(rest, i) && rest[i].status == ConditionTrue;
        assert FirstReadyAt(conditions, i + 1);
      }
    }
  }

  /** The classes the helper sorts pods into: pods of an older revision, pods of the
      update revision that are not ready, and those that are; `LabelledClass` is every
      pod carrying a revision label. */
  datatype PodClass = OldClass | NewNotReadyClass | UpdatedReadyClass | LabelledClass

  predicate InClass(p: Pod, c: PodClass, rev: string)
  {
    RevisionLabel in p.labels &&
    match c
    case OldClass => p.labels[RevisionLabel] != rev
    case NewNotReadyClass => p.labels[RevisionLabel] == rev && !PodReady(p.conditions)
    case UpdatedReadyClass => p.labels[RevisionLabel] == rev && PodReady(p.conditions)
    case LabelledClass => true
  }

  /** The pods of a class, in their order. */
  function Keep(pods: seq<Pod>, c: PodClass, rev: string): seq<Pod>
  {
    if pods == [] then []
    else Keep(pods[..|pods| - 1], c, rev) + (if InClass(pods[|pods| - 1], c, rev) then [pods[|pods| - 1]] else [])
  }

  /** The three classes split the labelled pods: each labelled pod lands in exactly one,
      and an unlabelled pod in none. */
  lemma {:induction false} Partition(pods: seq<Pod>, rev: string)
    ensures multiset(Keep(pods, OldClass, rev)) + multiset(Keep(pods, NewNotReadyClass, rev))
            + multiset(Keep(pods, UpdatedReadyClass, rev)) == multiset(Keep(pods, LabelledClass, rev))
  {
    if pods != [] {
      Partition(pods[..|pods| - 1], rev);
    }
  }

  /** A pod without a revision label is in no class. */
  lemma {:induction false} UnlabelledPodsDropped(pods: seq<Pod>, c: PodClass, rev: string, p: Pod)
    requires RevisionLabel !in p.labels
    ensures p !in Keep(pods, c, rev)
  {
    if pods != [] {
      UnlabelledPodsDropped(pods[..|pods| - 1], c, rev, p);
    }
  }

  /** `getPodsByLabelSelector`: the pods of the namespace whose labels include every
      match-label; match expressions play no part. */
  function SelectedPods(cluster: seq<Pod>, namespace: string, matchLabels: map<string, string>): seq<Pod>
  {
    if cluster == [] then []
    else (if cluster[0].namespace == namespace
             && forall k :: k in matchLabels ==> k in cluster[0].labels && cluster[0].labels[k] == matchLabels[k]
          then [cluster[0]] else [])
         + SelectedPods(cluster[1..], namespace, matchLabels)
  }

  /** `filterOldNewReadyPodsFromCloneSet` over the listed pods; `listError` is the list
      call failing. A list failure gives the error and three empty lists. */
  method FilterOldNewReadyPods(cluster: seq<Pod>, clone: CloneSetView, listError: Option<string>)
    returns (oldPods: seq<Pod>, newNotReadyPods: seq<Pod>, updatedReadyPods: seq<Pod>, err: Option<string>)
    ensures err == listError
    ensures err.Some? ==> oldPods == [] && newNotReadyPods == [] && updatedReadyPods == []
    ensures err.None? ==>
      var pods := SelectedPods(cluster, clone.namespace, clone.matchLabels);
      && oldPods == Keep(pods, OldClass, clone.updateRevision)
      && newNotReadyPods == Keep(pods, NewNotReadyClass, clone.updateRevision)
      && updatedReadyPods == Keep(pods, UpdatedReadyClass, clone.updateRevision)
  {
    oldPods, newNotReadyPods, updatedReadyPods := [], [], [];
    if listError.Some? {
      return oldPods, newNotReadyPods, updatedReadyPods, listError;
    }
    var pods := SelectedPods(cluster, clone.namespace, clone.matchLabels);
    var rev := clone.updateRevision;
    var i := 0;
    while i < |pods|
      invariant 0 <= i <= |pods|
      invariant oldPods == Keep(pods[..i], OldClass, rev)
      invariant newNotReadyPods == Keep(pods[..i], NewNotReadyClass, rev)
      invariant updatedReadyPods == Keep(pods[..i], UpdatedReadyClass, rev)
    {
      assert pods[..i + 1][..i] == pods[..i];
      if RevisionLabel in pods[i].labels {
        var podRevision := pods[i].labels[RevisionLabel];
        if podRevision == rev {
          if PodReady(pods[i].conditions) {
            updatedReadyPods := updatedReadyPods + [pods[i]];
          } else {
            newNotReadyPods := newNotReadyPods + [pods[i]];
          }
        } else {
          oldPods := oldPods + [pods[i]];
        }
      }
      i := i + 1;
    }
    assert pods[..|pods|] == pods;
    return oldPods, newNotReadyPods, updatedReadyPods, None;
  }

  /** The names of the pods, in order. */
  function Names(pods: seq<Pod>): seq<string>
  {
    if pods == [] then [] else Names(pods[..|pods| - 1]) + [pods[|pods| - 1].name]
  }

  /** How `%v` prints a slice of strings: the elements separated by spaces, in brackets. */
  function SliceText(names: seq<string>): string
  {
    "[" + Join(names, ' ') + "]"
  }

  /** One of the loops of `generatePodsInfoForCloneSet`: each pod's name appended in turn. */
  method CollectNames(pods: seq<Pod>) returns (names: seq<string>)
    ensures names == Names(pods)
  {
    names := [];
    for i := 0 to |pods|
      invariant names == Names(pods[..i])
    {
      assert pods[..i + 1][..i] == pods[..i];
      names := names + [pods[i].name];
    }
    assert pods[..|pods|] == pods;
  }

  /** `generatePodsInfoForCloneSet`: the names of the updated pods, ready ones first;
      empty when listing fails. */
  method GeneratePodsInfo(cluster: seq<Pod>, clone: CloneSetView, listError: Option<string>) returns (info: string)
    ensures listError.Some? ==> info == ""
    ensures listError.None? ==>
      var pods := SelectedPods(cluster, clone.namespace, clone.matchLabels);
      info == "Updated ready pods: " + SliceText(Names(Keep(pods, UpdatedReadyClass, clone.updateRevision)))
              + "\nUpdated not ready pods: " + SliceText(Names(Keep(pods, NewNotReadyClass, clone.updateRevision))) + "\n"
  {
    var _, notReadyNewPods, readyNewPods, err := FilterOldNewReadyPods(cluster, clone, listError);
    if err.Some? {
      return "";
    }
    var notReadyPodsSlice := CollectNames(notReadyNewPods);
    var readyPodsSlice := CollectNames(readyNewPods);
    return "Updated ready pods: " + SliceText(readyPodsSlice) + "\nUpdated not ready pods: " + SliceText(notReadyPodsSlice) + "\n";
  }
}
