/** References to workloads and their group/version/kind (pkg/api/api.go), with the
    parsing of "group/version" strings that `schema.FromAPIVersionAndKind` relies on. */
module Api {
  import opened Wrappers
  import opened Strings

  datatype GroupVersion = GroupVersion(group: string, version: string)
  datatype GroupVersionKind = GroupVersionKind(group: string, version: string, kind: string)
  {
    function GroupVersionOf(): GroupVersion { GroupVersion(group, version) }
  }
  datatype NamespacedName = NamespacedName(namespace: string, name: string)
  {
    /** `types.NamespacedName.String()`: "namespace/name". */
    function Text(): string { namespace + "/" + name }
  }

  /** apps/v1 Deployment. */
  const DeploymentKind := GroupVersionKind("apps", "v1", "Deployment")
  /** apps.kruise.io/v1alpha1 CloneSet. */
  const CloneSetKind := GroupVersionKind("apps.kruise.io", "v1alpha1", "CloneSet")

  /** `GroupVersion.String()`: the version alone for the core group, else "group/version". */
  function GroupVersionString(gv: GroupVersion): string
  {
    if gv.group == "" then gv.version else gv.group + "/" + gv.version
  }

  /** `schema.ParseGroupVersion`: "" and "/" are the empty group/version; a string
      without '/' is a version of the core group; one '/' separates group and version;
      more than one is an error. */
  function ParseGroupVersion(s: string): (r: Result<GroupVersion>)
    ensures r.Err? <==> s != "/" && CountChar(s, '/') > 1
  {
    if s == "" || s == "/" then Ok(GroupVersion("", ""))
    else
      var parts := Split(s, '/');
      SplitCount(s, '/');
      if |parts| == 1 then Ok(GroupVersion("", s))
      else if |parts| == 2 then Ok(GroupVersion(parts[0], parts[1]))
      else Err("unexpected GroupVersion string: " + s)
  }

  /** `schema.FromAPIVersionAndKind`: a malformed API version leaves group and version empty. */
  function FromAPIVersionAndKind(apiVersion: string, kind: string): (r: GroupVersionKind)
    ensures r.kind == kind
    ensures ParseGroupVersion(apiVersion).Ok? ==> r.GroupVersionOf() == ParseGroupVersion(apiVersion).value
    ensures ParseGroupVersion(apiVersion).Err? ==> r.group == "" && r.version == ""
  {
    match ParseGroupVersion(apiVersion)
    case Ok(gv) => GroupVersionKind(gv.group, gv.version, kind)
    case Err(_) => GroupVersionKind("", "", kind)
  }

  /** `GroupVersionKind.String()`, e.g. "apps/v1, Kind=Deployment"; unlike a group-version,
      the group and version are always joined by "/", so the core group prints "/v1". */
  function GroupVersionKindString(gvk: GroupVersionKind): string
  {
    gvk.group + "/" + gvk.version + ", Kind=" + gvk.kind
  }

  /** `api.ResourceRef`. */
  datatype ResourceRef = ResourceRef(apiVersion: string, kind: string, namespace: string, name: string)
  {
    function GetGroupVersionKind(): GroupVersionKind { FromAPIVersionAndKind(apiVersion, kind) }
    function GetNamespacedName(): NamespacedName { NamespacedName(namespace, name) }
    /** How `%v` prints the reference. */
    function Text(): string { "{" + apiVersion + " " + kind + " " + namespace + " " + name + "}" }
  }

  function NewDeploymentRef(namespace: string, name: string): (r: ResourceRef)
    ensures r.GetGroupVersionKind() == DeploymentKind
    ensures r.GetNamespacedName() == NamespacedName(namespace, name)
  {
    GroupVersionRoundTrip(DeploymentKind.GroupVersionOf());
    ResourceRef(GroupVersionString(DeploymentKind.GroupVersionOf()), DeploymentKind.kind, namespace, name)
  }

  function NewCloneSetRef(namespace: string, name: string): (r: ResourceRef)
    ensures r.GetGroupVersionKind() == CloneSetKind
    ensures r.GetNamespacedName() == NamespacedName(namespace, name)
  {
    GroupVersionRoundTrip(CloneSetKind.GroupVersionOf());
    ResourceRef(GroupVersionString(CloneSetKind.GroupVersionOf()), CloneSetKind.kind, namespace, name)
  }

  lemma {:induction false} CountCharConcat(a: string, b: string, c: char)
    ensures CountChar(a + b, c) == CountChar(a, c) + CountChar(b, c)
    decreases |a|
  {
    if a == [] {
      assert a + b == b;
    } else {
      assert (a + b)[1..] == a[1..] + b;
      CountCharConcat(a[1..], b, c);
    }
  }

  lemma {:induction false} CountCharZero(s: string, c: char)
    requires c !in s
    ensures CountChar(s, c) == 0
    decreases |s|
  {
    if s != [] { CountCharZero(s[1..], c); }
  }

  lemma {:induction false} SplitNoSep(s: string, c: char)
    requires c !in s
    ensures Split(s, c) == [s]
    decreases |s|
  {
    if s != [] { SplitNoSep(s[1..], c); assert s == [s[0]] + s[1..]; }
  }

  lemma {:induction false} SplitAtSep(a: string, b: string, c: char)
    requires c !in a && c !in b
    ensures Split(a + [c] + b, c) == [a, b]
    decreases |a|
  {
    if a == [] {
      assert a + [c] + b == [c] + b;
      SplitNoSep(b, c);
    } else {
      var s := a + [c] + b;
      assert s[1..] == a[1..] + [c] + b;
      SplitAtSep(a[1..], b, c);
      assert s[0] == a[0] && a == [a[0]] + a[1..];
    }
  }

  /** Printing a group/version and parsing the text back gives the same group/version,
      for every group and version free of '/'. */
  lemma GroupVersionRoundTrip(gv: GroupVersion)
    requires '/' !in gv.group && '/' !in gv.version
    ensures ParseGroupVersion(GroupVersionString(gv)) == Ok(gv)
  {
    var s := GroupVersionString(gv);
    if gv.group == "" {
      if s != "" {
        SplitNoSep(s, '/');
      }
    } else {
      SplitAtSep(gv.group, gv.version, '/');
      assert s == gv.group + ['/'] + gv.version;
      CountCharConcat(gv.group + ['/'], gv.version, '/');
      CountCharConcat(gv.group, ['/'], '/');
      CountCharZero(gv.group, '/');
      assert s != "/";
    }
  }

  /** Deployment and CloneSet references never coincide, whatever their names. */
  lemma DeploymentAndCloneSetRefsDiffer(ns1: string, n1: string, ns2: string, n2: string)
    ensures NewDeploymentRef(ns1, n1) != NewCloneSetRef(ns2, n2)
  {
    assert NewDeploymentRef(ns1, n1).kind == "Deployment";
    assert NewCloneSetRef(ns2, n2).kind == "CloneSet";
  }
}
