/** `kubectl-kruise scaledown` on a CloneSet (pkg/cmd/scaledown/scaledown_cloneset.go):
    the named pods are added to the CloneSet's PodsToDelete list and its replica count
    drops by as many, in place on the cached object, which is then sent as an update. */
module ScaleDown {
  import opened Wrappers
  import opened Strings

  // ---------------------------------------------------------------- int32 arithmetic

  const TwoTo31: int := 0x8000_0000
  const TwoTo32: int := 0x1_0000_0000

  predicate IsInt32(x: int) { -TwoTo31 <= x < TwoTo31 }

  /** Two's-complement wrap-around to 32 bits, as a Go `int32` conversion or
      `int32` subtraction does. */
  function Wrap32(x: int): (r: int)
    ensures IsInt32(r)
    ensures IsInt32(x) ==> r == x
    ensures (x - r) % TwoTo32 == 0
  {
    (x + TwoTo31) % TwoTo32 - TwoTo31
  }

  // ---------------------------------------------------------------- the cached CloneSet

  /** The fields of the fetched CloneSet that the command reads or overwrites. */
  class CloneSet {
    var name: string
    var replicas: int
    var podsToDelete: seq<string>

    ghost predicate Valid()
      reads this
    {
      IsInt32(replicas)
    }

    constructor(name: string, replicas: int, podsToDelete: seq<string>)
      requires IsInt32(replicas)
      ensures Valid()
      ensures this.name == name && this.replicas == replicas && this.podsToDelete == podsToDelete
    {
      this.name := name;
      this.replicas := replicas;
      this.podsToDelete := podsToDelete;
    }
  }

  /** The pod names of `--pods`: the text split on "," with nothing trimmed. */
  function PodList(pods: string): (r: seq<string>)
    ensures |r| == CountChar(pods, ',') + 1
    ensures forall p :: p in r ==> ',' !in p
  {
    SplitCount(pods, ',');
    SplitPiecesFree(pods, ',');
    Split(pods, ',')
  }

  /** The replica count after scaling down: one less per listed pod, in 32-bit
      arithmetic and with no lower bound. */
  function ScaledReplicas(replicas: int, pods: string): (r: int)
    ensures IsInt32(r)
    ensures IsInt32(replicas - |PodList(pods)|) ==> r == replicas - CountChar(pods, ',') - 1
  {
    Wrap32(replicas - Wrap32(|PodList(pods)|))
  }

  /** Nothing stops the count from going below zero: two pods taken from one replica. */
  lemma ReplicasMayGoNegative()
    ensures ScaledReplicas(1, "a,b") == -1
  {
    assert Split("", ',') == [""];
    assert "b"[1..] == "" && ['b'] + "" == "b";
    assert Split("b", ',') == ["b"];
    assert ",b"[1..] == "b";
    assert Split(",b", ',') == ["", "b"];
    assert "a,b"[1..] == ",b" && ['a'] + "" == "a";
    assert Split("a,b", ',') == ["a", "b"];
  }

  /** An empty `--pods` is still one (empty) pod name. */
  lemma EmptyPodsIsOneName()
    ensures PodList("") == [""]
  {
  }

  // ---------------------------------------------------------------- fetching

  /** How a failed fetch ends in the code as written. */
  datatype FetchFailure = Reported(message: string) | NilErrorDereference

  const RetrievePrefix := "failed to retrieve CloneSet "

  /** The fetch check as written: both a read error and an absent CloneSet take the
      same branch, which formats `err.Error()`; for an absent CloneSet `err` is nil,
      and the call dereferences it. */
  function FetchFailureAsWritten(name: string, found: bool, readError: Option<string>): (r: Option<FetchFailure>)
    ensures r.None? <==> readError.None? && found
    ensures readError.Some? ==> r == Some(Reported(RetrievePrefix + name + ": " + readError.value))
    ensures readError.None? && !found ==> r == Some(NilErrorDereference)
  {
    if readError.Some? || !found then
      (if readError.Some? then Some(Reported(RetrievePrefix + name + ": " + readError.value))
       else Some(NilErrorDereference))
    else None
  }

  /** The failing input: a CloneSet that is simply not there. */
  lemma AbsentCloneSetDereferencesNil()
    ensures FetchFailureAsWritten("sample", false, None) == Some(NilErrorDereference)
  {
  }

  const NotFoundReason := "not found"

  /** The fetch check as evidently intended: every failed fetch is reported as an
      error, a read error with its own text and an absent CloneSet as "not found". */
  function FetchError(name: string, found: bool, readError: Option<string>): (r: Option<string>)
    ensures r.None? <==> readError.None? && found
    ensures r.Some? ==> HasPrefix(r.value, RetrievePrefix + name + ": ")
    ensures readError.Some? ==> r == Some(RetrievePrefix + name + ": " + readError.value)
    ensures readError.None? && !found ==> r == Some(RetrievePrefix + name + ": " + NotFoundReason)
  {
    if readError.Some? then Some(RetrievePrefix + name + ": " + readError.value)
    else if !found then Some(RetrievePrefix + name + ": " + NotFoundReason)
    else None
  }

  /** The corrected check agrees with the code wherever the code does not crash. */
  lemma FetchErrorAgreesWhereDefined(name: string, found: bool, readError: Option<string>)
    ensures FetchFailureAsWritten(name, found, readError) != Some(NilErrorDereference) ==>
              (FetchError(name, found, readError).None? <==> FetchFailureAsWritten(name, found, readError).None?)
    ensures FetchFailureAsWritten(name, found, readError) != Some(NilErrorDereference) && FetchError(name, found, readError).Some? ==>
              FetchFailureAsWritten(name, found, readError) == Some(Reported(FetchError(name, found, readError).value))
  {
  }

  // ---------------------------------------------------------------- ScaleDownCloneSet

  const UpdateFailedPrefix := "scaledown cloneset "

  /** `ScaleDownCloneSet`, with the fetch check corrected. `found`/`readError` are the
      cache lookup's outcome, `updateError` and `printError` those of the update call
      and of printing the result. On a successful fetch the cached object is changed
      whether or not the update then succeeds. */
  method ScaleDownCloneSet(cs: CloneSet, name: string, found: bool, readError: Option<string>,
                           pods: string, updateError: Option<string>, printError: Option<string>)
    returns (err: Option<string>)
    requires cs.Valid()
    modifies cs
    ensures cs.Valid()
    ensures FetchError(name, found, readError).Some? ==> err == FetchError(name, found, readError) && unchanged(cs)
    ensures FetchError(name, found, readError).None? ==>
              cs.name == old(cs.name)
              && cs.replicas == ScaledReplicas(old(cs.replicas), pods)
              && cs.podsToDelete == old(cs.podsToDelete) + PodList(pods)
              && err == (if updateError.Some? then Some(UpdateFailedPrefix + cs.name + " failed, error is " + updateError.value)
                         else printError)
  {
    var fetchError := FetchError(name, found, readError);
    if fetchError.Some? {
      return fetchError;
    }
    var podsSlc := PodList(pods);
    var afterReplicas := Wrap32(cs.replicas - Wrap32(|podsSlc|));
    cs.podsToDelete := cs.podsToDelete + podsSlc;
    cs.replicas := afterReplicas;
    if updateError.Some? {
      return Some(UpdateFailedPrefix + cs.name + " failed, error is " + updateError.value);
    }
    return printError;
  }
}
