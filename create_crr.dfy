/** `kubectl-kruise create ContainerRecreateRequest` (pkg/cmd/create/create_crr.go):
    the recreate entries derived from a pod's containers, the option checks, and the
    request object with its fixed strategy. */
module CreateCrr {
  import opened Wrappers

  /** A lifecycle handler's three actions, each kept as an opaque description. */
  datatype Handler = Handler(exec: Option<string>, httpGet: Option<string>, tcpSocket: Option<string>)
  datatype Lifecycle = Lifecycle(preStop: Option<Handler>)
  datatype PodContainer = PodContainer(name: string, ports: seq<int>, lifecycle: Option<Lifecycle>)

  /** One entry of `spec.containers` of a ContainerRecreateRequest. */
  datatype CrrContainer = CrrContainer(name: string, ports: seq<int>, preStop: Option<Handler>)

  // ---------------------------------------------------------------- one container

  /** A failed conversion of a pod container, in the code as written. */
  datatype Conversion = Converted(c: CrrContainer) | NilPreStopDereference

  /** The conversion as written: a container with a lifecycle gets a preStop handler
      copied field by field from `Lifecycle.PreStop`, which is dereferenced even when
      it is nil. */
  function CrrContainerAsWritten(c: PodContainer): (r: Conversion)
    ensures r == NilPreStopDereference <==> c.lifecycle.Some? && c.lifecycle.value.preStop.None?
    ensures r.Converted? ==> r.c.name == c.name && r.c.ports == c.ports
    ensures r.Converted? ==> (r.c.preStop.Some? <==> c.lifecycle.Some?)
  {
    match c.lifecycle
    case None => Converted(CrrContainer(c.name, c.ports, None))
    case Some(l) =>
      match l.preStop
      case None => NilPreStopDereference
      case Some(h) => Converted(CrrContainer(c.name, c.ports, Some(Handler(h.exec, h.httpGet, h.tcpSocket))))
  }

  /** The failing input: a container with a lifecycle that has only a postStart hook. */
  lemma LifecycleWithoutPreStopDereferencesNil()
    ensures CrrContainerAsWritten(PodContainer("app", [], Some(Lifecycle(None)))) == NilPreStopDereference
  {
  }

  /** The conversion as evidently intended: the pod container's name and ports, and
      its preStop handler exactly when it has one. */
  function CrrContainerOf(c: PodContainer): (r: CrrContainer)
    ensures r.name == c.name && r.ports == c.ports
    ensures r.preStop.Some? <==> c.lifecycle.Some? && c.lifecycle.value.preStop.Some?
    ensures r.preStop.Some? ==> r.preStop == c.lifecycle.value.preStop
  {
    if c.lifecycle.Some? && c.lifecycle.value.preStop.Some? then CrrContainer(c.name, c.ports, c.lifecycle.value.preStop)
    else CrrContainer(c.name, c.ports, None)
  }

  /** Wherever the code as written does not crash, the corrected conversion gives the
      same entry. */
  lemma CrrContainerAgreesWhereDefined(c: PodContainer)
    ensures CrrContainerAsWritten(c).Converted? ==> CrrContainerAsWritten(c).c == CrrContainerOf(c)
  {
  }

  // ---------------------------------------------------------------- getAllCRRContainersInPod

  /** Every pod container converted, in pod order. */
  function CrrContainersOf(cs: seq<PodContainer>): (r: seq<CrrContainer>)
    ensures |r| == |cs|
    ensures forall i :: 0 <= i < |cs| ==> r[i] == CrrContainerOf(cs[i])
  {
    if cs == [] then [] else CrrContainersOf(cs[..|cs| - 1]) + [CrrContainerOf(cs[|cs| - 1])]
  }

  /** The entries whose name is selected, in their original order. */
  function SelectedOnly(cs: seq<CrrContainer>, selected: set<string>): (r: seq<CrrContainer>)
    ensures forall c :: c in r <==> c in cs && c.name in selected
    ensures |r| <= |cs|
  {
    if cs == [] then []
    else
      var rest := SelectedOnly(cs[..|cs| - 1], selected);
      var last := cs[|cs| - 1];
      assert forall c :: c in cs <==> c in cs[..|cs| - 1] || c == last by {
        assert cs == cs[..|cs| - 1] + [last];
      }
      if last.name in selected then rest + [last] else rest
  }

  /** The result of `getAllCRRContainersInPod`: every container of the pod when no
      names are given, otherwise only the named ones. */
  function ContainersForRequest(podContainers: seq<PodContainer>, names: seq<string>): seq<CrrContainer>
  {
    if names == [] then CrrContainersOf(podContainers)
    else SelectedOnly(CrrContainersOf(podContainers), set n | n in names)
  }

  /** Which containers a request covers: all of them without names, and with names
      exactly the pod containers so named, each once per pod container. */
  lemma ContainersForRequestMembers(podContainers: seq<PodContainer>, names: seq<string>)
    ensures names == [] ==> |ContainersForRequest(podContainers, names)| == |podContainers|
    ensures forall c :: c in ContainersForRequest(podContainers, names) <==>
              exists i :: 0 <= i < |podContainers| && c == CrrContainerOf(podContainers[i])
                          && (names == [] || podContainers[i].name in names)
  {
    var all := CrrContainersOf(podContainers);
    forall c ensures c in all <==> exists i :: 0 <= i < |podContainers| && c == CrrContainerOf(podContainers[i]) {
      if c in all {
        var i :| 0 <= i < |all| && all[i] == c;
        assert c == CrrContainerOf(podContainers[i]);
      }
    }
  }

  /** The first loop of `getAllCRRContainersInPod`: every pod container converted. */
  method ConvertAll(podContainers: seq<PodContainer>) returns (crrContainers: seq<CrrContainer>)
    ensures crrContainers == CrrContainersOf(podContainers)
  {
    crrContainers := [];
    for i := 0 to |podContainers|
      invariant crrContainers == CrrContainersOf(podContainers[..i])
    {
      assert podContainers[..i + 1][..i] == podContainers[..i];
      crrContainers := crrContainers + [CrrContainerOf(podContainers[i])];
    }
    assert podContainers[..|podContainers|] == podContainers;
  }

  /** The second loop of `getAllCRRContainersInPod`: the selected entries, in order. */
  method KeepSelected(crrContainers: seq<CrrContainer>, selectedContainers: set<string>)
    returns (selectedCrrContainers: seq<CrrContainer>)
    ensures selectedCrrContainers == SelectedOnly(crrContainers, selectedContainers)
  {
    selectedCrrContainers := [];
    for i := 0 to |crrContainers|
      invariant selectedCrrContainers == SelectedOnly(crrContainers[..i], selectedContainers)
    {
      assert crrContainers[..i + 1][..i] == crrContainers[..i];
      if crrContainers[i].name in selectedContainers {
        selectedCrrContainers := selectedCrrContainers + [crrContainers[i]];
      }
    }
    assert crrContainers[..|crrContainers|] == crrContainers;
  }

  /** `getAllCRRContainersInPod` with the corrected conversion: the pod is read
      (`podLookup`), every container is converted in a first loop, and the named ones
      are kept in a second. */
  method AllCrrContainersInPod(names: seq<string>, podLookup: Result<seq<PodContainer>>)
    returns (r: Result<seq<CrrContainer>>)
    ensures podLookup.Err? ==> r == Err(podLookup.error)
    ensures podLookup.Ok? ==> r == Ok(ContainersForRequest(podLookup.value, names))
  {
    if podLookup.Err? {
      return Err(podLookup.error);
    }
    var crrContainers := ConvertAll(podLookup.value);
    if |names| == 0 {
      return Ok(crrContainers);
    }
    var selectedContainers := set n | n in names;
    var selectedCrrContainers := KeepSelected(crrContainers, selectedContainers);
    return Ok(selectedCrrContainers);
  }

  // ---------------------------------------------------------------- Complete and Validate

  const DefaultNamespace := "default"

  /** The namespace `Complete` settles on: the configured one, or "default". */
  function NamespaceOrDefault(namespace: string): (r: string)
    ensures r != ""
    ensures namespace != "" ==> r == namespace
  {
    if |namespace| == 0 then DefaultNamespace else namespace
  }

  /** The containers `Complete` stores: all of the pod's when no names were given;
      with names it stores none. */
  method CompleteContainers(names: seq<string>, podLookup: Result<seq<PodContainer>>)
    returns (r: Result<seq<CrrContainer>>)
    ensures names == [] && podLookup.Err? ==> r == Err(podLookup.error)
    ensures names == [] && podLookup.Ok? ==> r == Ok(CrrContainersOf(podLookup.value))
    ensures names != [] ==> r == Ok([])
  {
    if |names| == 0 {
      r := AllCrrContainersInPod(names, podLookup);
    } else {
      r := Ok([]);
    }
  }

  const PodNotExistInfix := " in namespace "
  const FoundContainersFailedError := "found containers failed"
  const ContainerNotExistError := "has container not exist"

  /** `Validate`: the pod must exist (`podExists`), its containers must be readable
      (`podLookup`), and every selected name must be one of them. The first message
      names the request, not the pod. */
  method Validate(name: string, namespace: string, names: seq<string>, podExists: bool,
                  podLookup: Result<seq<PodContainer>>) returns (r: Option<string>)
    ensures !podExists ==> r == Some("pod " + name + PodNotExistInfix + namespace + " not exist")
    ensures podExists && podLookup.Err? ==> r == Some(FoundContainersFailedError)
    ensures podExists && podLookup.Ok? ==>
              (r.None? <==> forall n :: n in names ==> exists c :: c in podLookup.value && c.name == n)
    ensures podExists && podLookup.Ok? && r.Some? ==> r == Some(ContainerNotExistError)
  {
    if !podExists {
      return Some("pod " + name + PodNotExistInfix + namespace + " not exist");
    }
    var crrContainers := AllCrrContainersInPod(names, podLookup);
    if crrContainers.Err? {
      return Some(FoundContainersFailedError);
    }
    var containerNames := set c | c in crrContainers.value :: c.name;
    ContainersForRequestMembers(podLookup.value, names);
    if !(forall n :: n in names ==> n in containerNames) {
      var n :| n in names && n !in containerNames;
      forall c | c in podLookup.value ensures c.name != n {
        var i :| 0 <= i < |podLookup.value| && podLookup.value[i] == c;
        assert CrrContainerOf(podLookup.value[i]).name == c.name;
      }
      return Some(ContainerNotExistError);
    }
    forall n | n in names ensures exists c :: c in podLookup.value && c.name == n {
      var cc :| cc in crrContainers.value && cc.name == n;
      var i :| 0 <= i < |podLookup.value| && cc == CrrContainerOf(podLookup.value[i]);
      assert podLookup.value[i] in podLookup.value;
    }
    return None;
  }

  // ---------------------------------------------------------------- createCRR

  datatype Strategy = Strategy(failurePolicy: string, orderedRecreate: bool,
                               unreadyGracePeriodSeconds: int, minStartedSeconds: int)

  datatype ContainerRecreateRequest = ContainerRecreateRequest(
    apiVersion: string, kind: string, name: string, namespace: string,
    podName: string, containers: seq<CrrContainer>, strategy: Strategy,
    activeDeadlineSeconds: int, ttlSecondsAfterFinished: int)

  const DefaultStrategy := Strategy("Fail", false, 3, 3)
  const DefaultActiveDeadlineSeconds := 300
  const DefaultTtlSecondsAfterFinished := 1800

  /** `createCRR`: the request for the pod and the stored containers, always with the
      default strategy and deadlines, whatever grace-period flags were given. */
  function CreateCrr(name: string, namespace: string, podName: string, containers: seq<CrrContainer>,
                     unreadyGracePeriodFlag: int, minStartedFlag: int): (crr: ContainerRecreateRequest)
    ensures crr.apiVersion == "apps.kruise.io/v1alpha1" && crr.kind == "ContainerRecreateRequest"
    ensures crr.name == name && crr.namespace == namespace
    ensures crr.podName == podName && crr.containers == containers
    ensures crr.strategy.failurePolicy == "Fail" && !crr.strategy.orderedRecreate
    ensures crr.strategy.unreadyGracePeriodSeconds == 3 && crr.strategy.minStartedSeconds == 3
    ensures crr.activeDeadlineSeconds == 300 && crr.ttlSecondsAfterFinished == 1800
  {
    ContainerRecreateRequest("apps.kruise.io/v1alpha1", "ContainerRecreateRequest", name, namespace,
                             podName, containers, DefaultStrategy,
                             DefaultActiveDeadlineSeconds, DefaultTtlSecondsAfterFinished)
  }
}
