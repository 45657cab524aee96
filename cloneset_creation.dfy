/** Creating a CloneSet next to an existing Deployment without migrating any pods
    (pkg/creation/cloneset/cloneset_creation.go). */
module CloneSetCreation {
  import opened Wrappers
  import opened Api
  import opened Workloads
  import opened Conversion

  /** The kind checks of `Create`, which read nothing. */
  function CheckKinds(src: ResourceRef, dst: ResourceRef): (err: Option<string>)
    ensures err.None? <==> src.GetGroupVersionKind() == DeploymentKind && dst.GetGroupVersionKind() == CloneSetKind
  {
    if src.GetGroupVersionKind() != DeploymentKind then
      Some("invalid src type, currently only support " + GroupVersionKindString(DeploymentKind))
    else if dst.GetGroupVersionKind() != CloneSetKind then
      Some("invalid dst type, must be " + GroupVersionKindString(CloneSetKind))
    else None
  }

  /** What `Create` does with a given cluster: the CloneSet it creates, or the error it
      returns before creating anything. `readError` is the error every read reports when
      the API server fails for another reason than a missing object. */
  function CreatePlan(src: ResourceRef, dst: ResourceRef, deployments: map<NamespacedName, Deployment>,
                      cloneSets: map<NamespacedName, CloneSet>, readError: Option<string>): (r: Result<CloneSet>)
    // the kinds are checked first, before anything is read
    ensures CheckKinds(src, dst).Some? ==> r == Err(CheckKinds(src, dst).value)
    // then the destination must not exist, before the source is read
    ensures CheckKinds(src, dst).None? && readError.None? && dst.GetNamespacedName() in cloneSets ==>
      r == Err("cloneset " + dst.GetNamespacedName().Text() + " already exists")
    ensures CheckKinds(src, dst).None? && readError.Some? ==>
      r == Err("failed to get " + dst.Text() + ": " + readError.value)
    ensures r.Ok? <==>
      CheckKinds(src, dst).None? && readError.None?
      && dst.GetNamespacedName() !in cloneSets && src.GetNamespacedName() in deployments
    // replicas and everything else come from the conversion of the source
    ensures r.Ok? ==> r.value == DeploymentToCloneSet(deployments[src.GetNamespacedName()], dst.name)
  {
    if CheckKinds(src, dst).Some? then Err(CheckKinds(src, dst).value)
    else if readError.None? && dst.GetNamespacedName() in cloneSets then
      Err("cloneset " + dst.GetNamespacedName().Text() + " already exists")
    else if readError.Some? then Err("failed to get " + dst.Text() + ": " + readError.value)
    else if src.GetNamespacedName() !in deployments then
      Err("failed to get " + src.Text() + ": " + NotFound(DeploymentsResource, src.name))
    else Ok(DeploymentToCloneSet(deployments[src.GetNamespacedName()], dst.name))
  }

  /** The CloneSet lands in the namespace of the source Deployment under the destination
      name: the existence check looks at the destination's namespace, the create uses the
      source's. The two agree when both references share a namespace, as the migrate
      command always makes them. */
  lemma CreatedInSourceNamespace(src: ResourceRef, dst: ResourceRef, deployments: map<NamespacedName, Deployment>,
                                 cloneSets: map<NamespacedName, CloneSet>, readError: Option<string>)
    requires KeyedByMeta(deployments, (d: Deployment) => d.meta)
    requires CreatePlan(src, dst, deployments, cloneSets, readError).Ok?
    ensures var cs := CreatePlan(src, dst, deployments, cloneSets, readError).value;
      cs.meta.namespace == src.namespace && cs.meta.name == dst.name
  {
    var d := deployments[src.GetNamespacedName()];
    assert ((d: Deployment) => d.meta)(d).namespace == src.namespace;
  }

  /** `control`: the Deployments and CloneSets of the cluster. */
  class Control {
    var deployments: map<NamespacedName, Deployment>
    var cloneSets: map<NamespacedName, CloneSet>

    ghost predicate Valid()
      reads this
    {
      KeyedByMeta(deployments, (d: Deployment) => d.meta) && KeyedByMeta(cloneSets, (c: CloneSet) => c.meta)
    }

    constructor (deployments: map<NamespacedName, Deployment>, cloneSets: map<NamespacedName, CloneSet>)
      requires KeyedByMeta(deployments, (d: Deployment) => d.meta) && KeyedByMeta(cloneSets, (c: CloneSet) => c.meta)
      ensures Valid()
      ensures this.deployments == deployments && this.cloneSets == cloneSets
    {
      this.deployments := deployments;
      this.cloneSets := cloneSets;
    }

    /** `ensureCloneSetNotExists`. */
    method EnsureCloneSetNotExists(ref: ResourceRef, readError: Option<string>) returns (err: Option<string>)
      ensures err.None? <==> readError.None? && ref.GetNamespacedName() !in cloneSets
      ensures readError.None? && ref.GetNamespacedName() in cloneSets ==>
        err == Some("cloneset " + ref.GetNamespacedName().Text() + " already exists")
      ensures readError.Some? ==> err == Some("failed to get " + ref.Text() + ": " + readError.value)
    {
      if readError.None? && ref.GetNamespacedName() in cloneSets {
        return Some("cloneset " + ref.GetNamespacedName().Text() + " already exists");
      } else if readError.Some? {
        return Some("failed to get " + ref.Text() + ": " + readError.value);
      }
      return None;
    }

    /** `getDeployment`. */
    method GetDeployment(ref: ResourceRef, readError: Option<string>) returns (r: Result<Deployment>)
      ensures r.Ok? <==> readError.None? && ref.GetNamespacedName() in deployments
      ensures r.Ok? ==> r.value == deployments[ref.GetNamespacedName()]
      ensures r.Err? ==> r.error == "failed to get " + ref.Text() + ": " +
                                    (if readError.Some? then readError.value else NotFound(DeploymentsResource, ref.name))
    {
      if readError.Some? {
        return Err("failed to get " + ref.Text() + ": " + readError.value);
      }
      if ref.GetNamespacedName() !in deployments {
        return Err("failed to get " + ref.Text() + ": " + NotFound(DeploymentsResource, ref.name));
      }
      return Ok(deployments[ref.GetNamespacedName()]);
    }

    /** `client.Create` of a CloneSet: refused when its key is taken or the server fails
        with `createError`. */
    method CreateCloneSet(cs: CloneSet, createError: Option<string>) returns (err: Option<string>)
      requires Valid()
      modifies this`cloneSets
      ensures Valid()
      ensures var key := NamespacedName(cs.meta.namespace, cs.meta.name);
        && (err.None? <==> key !in old(cloneSets) && createError.None?)
        && (key in old(cloneSets) ==> err == Some(AlreadyExists(CloneSetsResource, cs.meta.name)))
        && cloneSets == if err.None? then old(cloneSets)[key := cs] else old(cloneSets)
    {
      var key := NamespacedName(cs.meta.namespace, cs.meta.name);
      if key in cloneSets {
        return Some(AlreadyExists(CloneSetsResource, cs.meta.name));
      }
      if createError.Some? {
        return createError;
      }
      cloneSets := cloneSets[key := cs];
      return None;
    }

    /** `Create`. `opts` is accepted and never read: the CloneSet always takes the
        Deployment's replica count. */
    method Create(src: ResourceRef, dst: ResourceRef, opts: CreationOptions,
                  readError: Option<string>, createError: Option<string>) returns (err: Option<string>)
      requires Valid()
      modifies this`cloneSets
      ensures Valid()
      ensures var plan := CreatePlan(src, dst, old(deployments), old(cloneSets), readError);
        && (plan.Err? ==> err == Some(plan.error) && cloneSets == old(cloneSets))
        && (plan.Ok? ==>
              var key := NamespacedName(plan.value.meta.namespace, plan.value.meta.name);
              && (err.None? <==> key !in old(cloneSets) && createError.None?)
              && cloneSets == if err.None? then old(cloneSets)[key := plan.value] else old(cloneSets))
    {
      err := CheckKinds(src, dst);
      if err.Some? {
        return;
      }
      err := EnsureCloneSetNotExists(dst, readError);
      if err.Some? {
        return;
      }
      var srcDeployment := GetDeployment(src, readError);
      if srcDeployment.Err? {
        return Some(srcDeployment.error);
      }
      var dstCloneSet := DeploymentToCloneSet(srcDeployment.value, dst.name);
      err := CreateCloneSet(dstCloneSet, createError);
    }
  }
}
