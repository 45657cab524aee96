/** `kubectl-kruise set image` (pkg/cmd/set/set_image.go): option validation and the
    in-place image update of a pod spec's containers, or of a SidecarSet's sidecar
    containers. */
module SetImage {
  import opened Wrappers
  import opened CmdUtil

  datatype Container = Container(name: string, image: string)
  datatype SidecarContainer = SidecarContainer(name: string, image: string, upgradeStrategy: string)

  const Wildcard := "*"

  /** A container is selected by its own name, or by "*". */
  predicate Selected(containerName: string, name: string)
  {
    containerName == name || name == Wildcard
  }

  // ---------------------------------------------------------------- setImage

  /** A container after setting `image` on it if `name` selects it. */
  function SetOn(c: Container, name: string, image: string): Container
  {
    if Selected(c.name, name) then c.(image := image) else c
  }

  /** The containers after setting `image` on every selected one. */
  function WithImage(cs: seq<Container>, name: string, image: string): (r: seq<Container>)
    ensures |r| == |cs|
    ensures forall i :: 0 <= i < |cs| ==> r[i] == SetOn(cs[i], name, image)
  {
    seq(|cs|, i requires 0 <= i < |cs| => SetOn(cs[i], name, image))
  }

  /** `setImage`: updates the selected containers in place and reports whether any was
      selected. */
  method SetImage(containers: array<Container>, name: string, image: string) returns (found: bool)
    modifies containers
    ensures containers[..] == WithImage(old(containers[..]), name, image)
    ensures found <==> exists i :: 0 <= i < containers.Length && Selected(containers[i].name, name)
  {
    found := false;
    var i := 0;
    while i < containers.Length
      invariant 0 <= i <= containers.Length
      invariant forall j :: 0 <= j < i ==> containers[j] == WithImage(old(containers[..]), name, image)[j]
      invariant forall j :: i <= j < containers.Length ==> containers[j] == old(containers[j])
      invariant found <==> exists j :: 0 <= j < i && Selected(containers[j].name, name)
    {
      if Selected(containers[i].name, name) {
        found := true;
        containers[i] := containers[i].(image := image);
      }
      i := i + 1;
    }
  }

  /** Setting the same image twice changes nothing further; length, order, names and
      unselected containers are kept, and selected ones carry the image. */
  lemma WithImageIdempotent(cs: seq<Container>, name: string, image: string)
    ensures WithImage(WithImage(cs, name, image), name, image) == WithImage(cs, name, image)
    ensures forall i :: 0 <= i < |cs| ==> WithImage(cs, name, image)[i].name == cs[i].name
    ensures forall i :: 0 <= i < |cs| ==>
              (Selected(cs[i].name, name) ==> WithImage(cs, name, image)[i].image == image)
              && (!Selected(cs[i].name, name) ==> WithImage(cs, name, image)[i] == cs[i])
  {
  }

  /** The sidecar containers after setting `image` on every selected one. */
  function SidecarsWithImage(cs: seq<SidecarContainer>, name: string, image: string): (r: seq<SidecarContainer>)
    ensures |r| == |cs|
  {
    seq(|cs|, i requires 0 <= i < |cs| => if Selected(cs[i].name, name) then cs[i].(image := image) else cs[i])
  }

  /** `setSideCarImage`: the same rule on a SidecarSet's sidecar containers. */
  method SetSidecarImage(containers: array<SidecarContainer>, name: string, image: string) returns (found: bool)
    modifies containers
    ensures containers[..] == SidecarsWithImage(old(containers[..]), name, image)
    ensures found <==> exists i :: 0 <= i < containers.Length && Selected(containers[i].name, name)
  {
    found := false;
    var i := 0;
    while i < containers.Length
      invariant 0 <= i <= containers.Length
      invariant forall j :: 0 <= j < i ==> containers[j] == SidecarsWithImage(old(containers[..]), name, image)[j]
      invariant forall j :: i <= j < containers.Length ==> containers[j] == old(containers[j])
      invariant found <==> exists j :: 0 <= j < i && Selected(containers[j].name, name)
    {
      if Selected(containers[i].name, name) {
        found := true;
        containers[i] := containers[i].(image := image);
      }
      i := i + 1;
    }
  }

  function AsContainer(c: SidecarContainer): Container { Container(c.name, c.image) }

  /** Sidecar containers follow exactly the rule for plain containers, and keep their
      other fields. */
  lemma SidecarRuleMatchesContainerRule(cs: seq<SidecarContainer>, name: string, image: string)
    ensures forall i :: 0 <= i < |cs| ==>
              AsContainer(SidecarsWithImage(cs, name, image)[i]) == WithImage(seq(|cs|, j requires 0 <= j < |cs| => AsContainer(cs[j])), name, image)[i]
              && SidecarsWithImage(cs, name, image)[i].upgradeStrategy == cs[i].upgradeStrategy
  {
  }

  // ---------------------------------------------------------------- hasWildcardKey, resolveImageFunc

  /** `hasWildcardKey`. */
  function HasWildcardKey(containerImages: map<string, string>): (r: bool)
    ensures r <==> Wildcard in containerImages
  {
    Wildcard in containerImages
  }

  /** `resolveImageFunc`: the image name is used as given and never fails. */
  function ResolveImage(image: string): (r: Result<string>)
    ensures r == Ok(image)
  {
    Ok(image)
  }

  // ---------------------------------------------------------------- Validate

  datatype SetImageOptions = SetImageOptions(all: bool, selector: string, resources: seq<string>,
                                             filenames: seq<string>, kustomize: string,
                                             containerImages: map<string, string>, local: bool,
                                             dryRunStrategy: DryRunStrategy)

  const NoImagesError := "at least one image update is required"
  const WildcardWithOthersError := "all containers are already specified by *, but saw more than one container_name=container_image pairs"

  /** `SetImageOptions.Validate`: every failing check contributes its error, in this
      order; an empty list means valid. */
  function Validate(o: SetImageOptions): (errors: seq<string>)
    ensures |errors| <= 4
  {
    (if o.all && |o.selector| > 0 then [AllWithSelectorError] else [])
    + (if |o.resources| < 1 && |o.filenames| == 0 && |o.kustomize| == 0 then [NoResourcesError] else [])
    + (if |o.containerImages| < 1 then [NoImagesError]
       else if |o.containerImages| > 1 && HasWildcardKey(o.containerImages) then [WildcardWithOthersError]
       else [])
    + (if o.local && o.dryRunStrategy == DryRunServer then [LocalServerDryRunError] else [])
  }

  /** The five messages differ from one another. */
  lemma ValidateMessagesDistinct()
    ensures AllWithSelectorError != NoResourcesError && AllWithSelectorError != NoImagesError
    ensures AllWithSelectorError != WildcardWithOthersError && AllWithSelectorError != LocalServerDryRunError
    ensures NoResourcesError != NoImagesError && NoResourcesError != WildcardWithOthersError
    ensures NoResourcesError != LocalServerDryRunError && NoImagesError != WildcardWithOthersError
    ensures NoImagesError != LocalServerDryRunError && WildcardWithOthersError != LocalServerDryRunError
  {
  }

  /** Each check contributes its own error exactly when it fails, and nothing else
      appears. */
  lemma ValidateErrors(o: SetImageOptions)
    ensures var errors := Validate(o);
      && (AllWithSelectorError in errors <==> o.all && |o.selector| > 0)
      && (NoResourcesError in errors <==> |o.resources| < 1 && o.filenames == [] && o.kustomize == "")
      && (NoImagesError in errors <==> |o.containerImages| < 1)
      && (WildcardWithOthersError in errors <==> |o.containerImages| > 1 && Wildcard in o.containerImages)
      && (LocalServerDryRunError in errors <==> o.local && o.dryRunStrategy == DryRunServer)
      && forall e :: e in errors ==>
           e in [AllWithSelectorError, NoResourcesError, NoImagesError, WildcardWithOthersError, LocalServerDryRunError]
  {
    ValidateMessagesDistinct();
  }

  // ---------------------------------------------------------------- updating a pod spec

  /** The image a container ends up with: the "*" image if given, else the image for
      its own name, if any. */
  function ImageFor(images: map<string, string>, containerName: string): Option<string>
  {
    if Wildcard in images then Some(images[Wildcard])
    else if containerName in images then Some(images[containerName])
    else None
  }

  /** A container after the whole image map is applied. */
  function ApplyTo(c: Container, images: map<string, string>): (r: Container)
    ensures r.name == c.name
  {
    if ImageFor(images, c.name).Some? then c.(image := ImageFor(images, c.name).value) else c
  }

  function ApplyImages(cs: seq<Container>, images: map<string, string>): (r: seq<Container>)
    ensures |r| == |cs|
    ensures forall i :: 0 <= i < |cs| ==> r[i] == ApplyTo(cs[i], images)
  {
    seq(|cs|, i requires 0 <= i < |cs| => ApplyTo(cs[i], images))
  }

  /** What Validate lets through: "*" comes alone. */
  predicate WildcardAlone(images: map<string, string>)
  {
    !(|images| > 1 && Wildcard in images)
  }

  const NotFoundPrefix := "error: unable to find container named \""

  function NotFoundMessage(name: string): string
  {
    NotFoundPrefix + name + "\""
  }

  predicate NoneSelected(cs: seq<Container>, name: string)
  {
    forall i :: 0 <= i < |cs| ==> !Selected(cs[i].name, name)
  }

  lemma TwoKeys(images: map<string, string>, a: string, b: string)
    requires a in images && b in images && a != b
    ensures |images| > 1
  {
    var rest := images.Keys - {a};
    assert b in rest;
    assert images.Keys == rest + {a};
  }

  /** `applied` holds some of the requested names with their images. */
  ghost predicate SubMap(applied: map<string, string>, images: map<string, string>)
  {
    forall n :: n in applied ==> n in images && applied[n] == images[n]
  }

  lemma ApplyOneMore(images: map<string, string>, applied: map<string, string>, name: string)
    requires WildcardAlone(images) && SubMap(applied, images) && name in images && name !in applied
    ensures forall c :: SetOn(ApplyTo(c, applied), name, images[name]) == ApplyTo(c, applied[name := images[name]])
  {
    if name == Wildcard {
      assert applied == map[] by {
        forall n | n in applied ensures false {
          TwoKeys(images, n, Wildcard);
        }
      }
    } else {
      assert Wildcard !in images by {
        if Wildcard in images { TwoKeys(images, name, Wildcard); }
      }
    }
  }

  lemma NotFoundMessageInjective(a: string, b: string)
    requires NotFoundMessage(a) == NotFoundMessage(b)
    ensures a == b
  {
    assert a == NotFoundMessage(a)[|NotFoundPrefix|..|NotFoundMessage(a)| - 1];
    assert b == NotFoundMessage(b)[|NotFoundPrefix|..|NotFoundMessage(b)| - 1];
  }

  /** The array holds its original containers with `images` applied. */
  ghost predicate Applied(a: array<Container>, a0: seq<Container>, images: map<string, string>)
    reads a
  {
    a.Length == |a0| && forall j :: 0 <= j < |a0| ==> a[j] == ApplyTo(a0[j], images)
  }

  /** One requested name: set its image on both lists, which then hold one more name's
      image; report whether it selected nothing. */
  method ApplyImage(initContainers: array<Container>, containers: array<Container>, name: string, image: string,
                    ghost init0: seq<Container>, ghost cs0: seq<Container>,
                    ghost images: map<string, string>, ghost applied: map<string, string>)
    returns (missing: bool)
    requires initContainers != containers
    requires WildcardAlone(images) && SubMap(applied, images) && name in images && name !in applied && image == images[name]
    requires Applied(initContainers, init0, applied)
    requires Applied(containers, cs0, applied)
    modifies initContainers, containers
    ensures Applied(initContainers, init0, applied[name := image])
    ensures Applied(containers, cs0, applied[name := image])
    ensures missing <==> NoneSelected(init0, name) && NoneSelected(cs0, name)
  {
    ApplyOneMore(images, applied, name);
    var initFound := SetImage(initContainers, name, image);
    var found := SetImage(containers, name, image);
    missing := !found && !initFound;
  }

  /** The errors list names exactly the given names. */
  ghost predicate ErrorsFor(errors: seq<string>, names: set<string>)
  {
    (forall e :: e in errors ==> exists n :: n in names && e == NotFoundMessage(n))
    && (forall n :: n in names ==> NotFoundMessage(n) in errors)
  }

  lemma ErrorsForAdd(errors: seq<string>, names: set<string>, name: string)
    requires ErrorsFor(errors, names)
    ensures ErrorsFor(errors + [NotFoundMessage(name)], names + {name})
  {
  }

  /** The errors name exactly the requested names that select nothing. */
  lemma ErrorsForMissing(errors: seq<string>, missingNames: set<string>, images: map<string, string>,
                         init0: seq<Container>, cs0: seq<Container>)
    requires ErrorsFor(errors, missingNames) && missingNames <= images.Keys
    requires forall n :: n in images ==> (n in missingNames <==> NoneSelected(init0, n) && NoneSelected(cs0, n))
    ensures forall n :: n in images ==> (NotFoundMessage(n) in errors <==> NoneSelected(init0, n) && NoneSelected(cs0, n))
    ensures forall e :: e in errors ==> exists n :: n in images && e == NotFoundMessage(n)
  {
    forall n | n in images && NotFoundMessage(n) in errors
      ensures NoneSelected(init0, n) && NoneSelected(cs0, n)
    {
      var m :| m in missingNames && NotFoundMessage(n) == NotFoundMessage(m);
      NotFoundMessageInjective(n, m);
    }
  }

  /** The image loop of Run for one pod spec (`UpdatePodSpecForObject`'s callback):
      each requested name is applied to the init containers and the containers, and a
      name that selects neither adds an error. Validate has already rejected "*"
      together with other names. */
  method UpdatePodSpec(initContainers: array<Container>, containers: array<Container>, images: map<string, string>)
    returns (errors: seq<string>)
    requires initContainers != containers
    requires WildcardAlone(images)
    modifies initContainers, containers
    ensures initContainers[..] == ApplyImages(old(initContainers[..]), images)
    ensures containers[..] == ApplyImages(old(containers[..]), images)
    ensures forall n :: n in images ==>
              (NotFoundMessage(n) in errors <==> NoneSelected(old(initContainers[..]), n) && NoneSelected(old(containers[..]), n))
    ensures forall e :: e in errors ==> exists n :: n in images && e == NotFoundMessage(n)
  {
    ghost var init0 := initContainers[..];
    ghost var cs0 := containers[..];
    errors := [];
    var remaining := images.Keys;
    ghost var applied: map<string, string> := map[];
    ghost var missingNames: set<string> := {};
    while remaining != {}
      invariant SubMap(applied, images)
      invariant forall n :: n in images ==> (n in applied <==> n !in remaining)
      invariant remaining <= images.Keys
      invariant Applied(initContainers, init0, applied)
      invariant Applied(containers, cs0, applied)
      invariant missingNames <= applied.Keys
      invariant forall n :: n in applied ==> (n in missingNames <==> NoneSelected(init0, n) && NoneSelected(cs0, n))
      invariant ErrorsFor(errors, missingNames)
      decreases |remaining|
    {
      var name :| name in remaining;
      var image := ResolveImage(images[name]).value;
      var missing := ApplyImage(initContainers, containers, name, image, init0, cs0, images, applied);
      if missing {
        ErrorsForAdd(errors, missingNames, name);
        errors := errors + [NotFoundMessage(name)];
        missingNames := missingNames + {name};
      }
      applied := applied[name := image];
      remaining := remaining - {name};
    }
    assert applied == images;
    assert initContainers[..] == ApplyImages(init0, images);
    assert containers[..] == ApplyImages(cs0, images);
    ErrorsForMissing(errors, missingNames, images, init0, cs0);
  }
}
