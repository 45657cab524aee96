/** The ResourceDistribution generator's entry points
    (cmd/resourcedistributiongenerator/generator/resourcedistribution.go): the plugin
    configuration, `MakeResourceDistribution`, and the filter that `BuildCmd` hands
    to the kustomize function framework. */
module ResourceDistribution {
  import opened Wrappers
  import opened Yaml
  import opened GenAlias
  import opened GenUtils
  import opened GenTargets

  const NameRequiredError := "a ResourceDistribution must have a name "

  /** Where `yaml.SetK8sName` writes. */
  const K8sNamePath: seq<string> := ["metadata", "name"]

  /** `ResourceDistributionPlugin`: the generator's own name, the resource to
      distribute, the targets, and options for its own metadata. */
  datatype Plugin = Plugin(
    name: string,
    resource: ResourceArgs,
    targets: TargetsArgs,
    options: Option<GeneratorOptions>)

  /** The expressions slice of the configuration, sorted in place by `setTargets`. */
  function PluginExprs(config: Plugin): array?<Requirement>
  {
    ExprArray(config.targets.namespaceLabelSelector)
  }

  /** The template with the generator's own annotations and labels. */
  function WithOwnMeta(n: Node, options: Option<GeneratorOptions>): Node
  {
    match options
    case None => n
    case Some(opts) =>
      WithLabels(WithLabels(n, opts.annotations, MetadataAnnotationsPath), opts.labels, MetadataLabelsPath)
  }

  /** The node `setResource` starts from: the template, the generator's own
      annotations and labels, then its name, which must not be empty. */
  function BaseNode(config: Plugin): Result<Node>
  {
    if config.name == "" then Err(NameRequiredError)
    else Ok(SetAt(WithOwnMeta(Template, config.options), K8sNamePath, Plain(config.name)))
  }

  /** The node `setTargets` starts from. */
  function BeforeTargets(config: Plugin, loaded: Result<seq<KvPair>>,
                         invalidKey: string -> Option<string>): Result<Node>
  {
    match BaseNode(config)
    case Err(e) => Err(e)
    case Ok(n) =>
      var r := ResourceOutcome(n, config.resource, loaded, invalidKey);
      if r.err.Some? then Err(r.err.value) else Ok(r.root)
  }

  /** `MakeResourceDistribution`, given the contents of the expressions slice: the
      steps in order, the first error ending it with no node. */
  function Generated(config: Plugin, loaded: Result<seq<KvPair>>,
                     invalidKey: string -> Option<string>, exprs: seq<Requirement>): Result<Node>
  {
    match BeforeTargets(config, loaded, invalidKey)
    case Err(e) => Err(e)
    case Ok(n) =>
      var t := TargetsOutcome(n, config.targets, exprs);
      if t.err.Some? then Err(t.err.value) else Ok(t.root)
  }

  method MakeResourceDistribution(config: Plugin, loaded: Result<seq<KvPair>>,
                                  invalidKey: string -> Option<string>)
    returns (rn: RNode?, err: Option<string>)
    modifies PluginExprs(config)
    ensures var g := Generated(config, loaded, invalidKey, old(Exprs(PluginExprs(config))));
            (g.Err? ==> rn == null && err == Some(g.error)) &&
            (g.Ok? ==> err.None? && rn != null && fresh(rn) && rn.root == g.value)
    ensures Exprs(PluginExprs(config)) ==
            if BeforeTargets(config, loaded, invalidKey).Ok?
            then ExpressionsAfter(old(Exprs(PluginExprs(config))))
            else old(Exprs(PluginExprs(config)))
  {
    var node := new RNode(Template);
    if config.options.Some? {
      SetLabelsOrAnnotations(node, config.options.value.annotations, MetadataAnnotationsPath);
      SetLabelsOrAnnotations(node, config.options.value.labels, MetadataLabelsPath);
    }
    if config.name == "" {
      return null, Some(NameRequiredError);
    }
    node.SetMapField(Plain(config.name), K8sNamePath);
    err := SetResource(node, config.resource, loaded, invalidKey);
    if err.Some? {
      return null, err;
    }
    err := SetTargets(node, config.targets);
    if err.Some? {
      return null, err;
    }
    return node, None;
  }

  /** The filter `BuildCmd` installs: the input items are ignored and the output is
      exactly the one generated node. */
  method Filter(items: seq<RNode>, config: Plugin, loaded: Result<seq<KvPair>>,
                invalidKey: string -> Option<string>) returns (res: Result<seq<RNode>>)
    modifies PluginExprs(config)
    ensures var g := Generated(config, loaded, invalidKey, old(Exprs(PluginExprs(config))));
            (g.Err? ==> res == Err(g.error)) &&
            (g.Ok? ==> res.Ok? && |res.value| == 1 && res.value[0].root == g.value)
  {
    ghost var exprs := Exprs(PluginExprs(config));
    ghost var g := Generated(config, loaded, invalidKey, exprs);
    var rn, err := MakeResourceDistribution(config, loaded, invalidKey);
    if err.Some? {
      return Err(err.value);
    }
    return Ok([rn]);
  }

  // ---------------------------------------------------------------- properties

  /** Generation succeeds exactly when the generator has a name, the data load and
      validate, the resource kind is ConfigMap or Secret, the resource has a name,
      there is a target, and every match expression is valid; the errors come in
      that order. */
  lemma GeneratedErrors(config: Plugin, loaded: Result<seq<KvPair>>,
                        invalidKey: string -> Option<string>, exprs: seq<Requirement>)
    ensures var g := Generated(config, loaded, invalidKey, exprs);
            var args := config.resource;
            var d := ValidatedDataMap(args.resourceName, loaded, invalidKey);
            (g.Ok? <==>
              config.name != "" && d.Ok? && ValidKind(args.resourceKind) && args.resourceName != "" &&
              !NoTargets(config.targets) &&
              (PluginExprs(config) == null || forall r :: r in exprs ==> ValidRequirement(r))) &&
            (config.name == "" ==> g == Err(NameRequiredError)) &&
            (config.name != "" && d.Err? ==> g == Err(d.error)) &&
            (config.name != "" && d.Ok? && !ValidKind(args.resourceKind) ==> g == Err(ResourceKindError)) &&
            (config.name != "" && d.Ok? && ValidKind(args.resourceKind) && args.resourceName == "" ==>
               g == Err(ResourceNameError)) &&
            (BeforeTargets(config, loaded, invalidKey).Ok? && NoTargets(config.targets) ==>
               g == Err(EmptyTargetsError))
  {
    if config.name != "" {
      var n := BaseNode(config).value;
      ResourceErrors(n, config.resource, loaded, invalidKey);
      if BeforeTargets(config, loaded, invalidKey).Ok? {
        var b := BeforeTargets(config, loaded, invalidKey).value;
        TargetsSucceed(b, config.targets, exprs);
        TargetsEmpty(b, config.targets, exprs);
      }
    }
  }

  /** Whatever the steps after the name write, they stay below `spec.resource` and
      `spec.targets`. */
  lemma GeneratedKeeps(config: Plugin, loaded: Result<seq<KvPair>>,
                       invalidKey: string -> Option<string>, exprs: seq<Requirement>, q: seq<string>)
    requires Generated(config, loaded, invalidKey, exprs).Ok?
    requires Diverge(ResourcePath, q) && Diverge(TargetsPath, q)
    ensures Get(Generated(config, loaded, invalidKey, exprs).value, q) == Get(BaseNode(config).value, q)
  {
    var n := BaseNode(config).value;
    ResourceOutside(n, config.resource, loaded, invalidKey, q);
    TargetsOutside(BeforeTargets(config, loaded, invalidKey).value, config.targets, exprs, q);
  }

  /** What the template holds. */
  lemma TemplateFields()
    ensures Get(Template, ["apiVersion"]) == Some(Str("apps.kruise.io/v1alpha1"))
    ensures Get(Template, ["kind"]) == Some(Str("ResourceDistribution"))
    ensures Get(Template, ResourcePath + ["apiVersion"]) == Some(Str("v1"))
  {
    var q := ResourcePath + ["apiVersion"];
    assert q == ["spec", "resource", "apiVersion"];
    var v1 := Mapping([Field("apiVersion", Str("v1"))]);
    var spec := Mapping([Field("resource", v1)]);
    assert FindField(Template.fields[2..], "spec") == Some(spec);
    assert FindField(Template.fields[1..], "spec") == Some(spec);
    assert FindField(Template.fields, "spec") == Some(spec);
    assert Get(v1, ["apiVersion"]) == Some(Str("v1"));
    assert Get(spec, ["resource", "apiVersion"]) == Get(v1, ["apiVersion"]);
    assert Get(Template, q) == Get(spec, ["resource", "apiVersion"]);
  }

  /** The node before `setResource` still holds the template's fields, and the name. */
  lemma BaseFields(config: Plugin, q: seq<string>)
    requires BaseNode(config).Ok?
    requires q == ["apiVersion"] || q == ["kind"] || q == ResourcePath + ["apiVersion"]
    ensures Get(BaseNode(config).value, q) == Get(Template, q)
    ensures Get(BaseNode(config).value, K8sNamePath) == Some(Plain(config.name))
  {
    var m := WithOwnMeta(Template, config.options);
    OwnMetaOther(config.options, q);
    assert K8sNamePath[0] != q[0];
    SetAtOther(m, K8sNamePath, q, Plain(config.name));
    SetAtGet(m, K8sNamePath, Plain(config.name));
  }

  /** The generated node is a ResourceDistribution of apps.kruise.io/v1alpha1 with
      the configured name. */
  lemma GeneratedHeader(config: Plugin, loaded: Result<seq<KvPair>>,
                        invalidKey: string -> Option<string>, exprs: seq<Requirement>)
    requires Generated(config, loaded, invalidKey, exprs).Ok?
    ensures var root := Generated(config, loaded, invalidKey, exprs).value;
            Get(root, ["apiVersion"]) == Some(Str("apps.kruise.io/v1alpha1")) &&
            Get(root, ["kind"]) == Some(Str("ResourceDistribution")) &&
            Get(root, K8sNamePath) == Some(Plain(config.name))
  {
    TemplateFields();
    BaseFields(config, ["apiVersion"]);
    BaseFields(config, ["kind"]);
    GeneratedKeeps(config, loaded, invalidKey, exprs, ["apiVersion"]);
    GeneratedKeeps(config, loaded, invalidKey, exprs, ["kind"]);
    GeneratedKeeps(config, loaded, invalidKey, exprs, K8sNamePath);
  }

  /** The generator's own annotations and labels touch nothing outside `metadata`. */
  lemma OwnMetaOther(options: Option<GeneratorOptions>, q: seq<string>)
    requires q != [] && q[0] != "metadata"
    ensures Get(WithOwnMeta(Template, options), q) == Get(Template, q)
  {
    if options.Some? {
      var opts := options.value;
      assert MetadataAnnotationsPath[0] != q[0] && MetadataLabelsPath[0] != q[0];
      WithLabelsOther(Template, opts.annotations, MetadataAnnotationsPath, q);
      WithLabelsOther(WithLabels(Template, opts.annotations, MetadataAnnotationsPath),
        opts.labels, MetadataLabelsPath, q);
    }
  }

  /** The distributed resource keeps the `apiVersion: v1` of the template. */
  lemma GeneratedResourceVersion(config: Plugin, loaded: Result<seq<KvPair>>,
                                 invalidKey: string -> Option<string>, exprs: seq<Requirement>)
    requires Generated(config, loaded, invalidKey, exprs).Ok?
    ensures Get(Generated(config, loaded, invalidKey, exprs).value, ResourcePath + ["apiVersion"]) == Some(Str("v1"))
  {
    var q := ResourcePath + ["apiVersion"];
    TemplateFields();
    BaseFields(config, q);
    var n := BaseNode(config).value;
    assert (ResourcePath + [DataField])[2] != q[2] && (ResourcePath + [BinaryDataField])[2] != q[2];
    DataOther(n, config.resource, loaded, invalidKey, q);
    ResourceKeepsData(n, config.resource, loaded, invalidKey, q);
    assert TargetsPath[1] != q[1];
    TargetsOutside(BeforeTargets(config, loaded, invalidKey).value, config.targets, exprs, q);
  }

  /** The generator's own labels end up in its top-level metadata. */
  lemma GeneratedOwnLabels(config: Plugin, loaded: Result<seq<KvPair>>,
                           invalidKey: string -> Option<string>, exprs: seq<Requirement>, k: string)
    requires Generated(config, loaded, invalidKey, exprs).Ok?
    requires config.options.Some? && config.options.value.labels.Some?
    requires k in config.options.value.labels.value
    ensures Get(Generated(config, loaded, invalidKey, exprs).value, MetadataLabelsPath + [k])
            == Some(Str(config.options.value.labels.value[k]))
  {
    var opts := config.options.value;
    var m := WithOwnMeta(Template, config.options);
    var a := WithLabels(Template, opts.annotations, MetadataAnnotationsPath);
    var q := MetadataLabelsPath + [k];
    WithLabelsGet(a, opts.labels.value, MetadataLabelsPath, k);
    assert K8sNamePath[1] != q[1];
    SetAtOther(m, K8sNamePath, q, Plain(config.name));
    GeneratedKeeps(config, loaded, invalidKey, exprs, q);
  }

  /** The generator's own annotations end up in its top-level metadata. */
  lemma GeneratedOwnAnnotations(config: Plugin, loaded: Result<seq<KvPair>>,
                                invalidKey: string -> Option<string>, exprs: seq<Requirement>, k: string)
    requires Generated(config, loaded, invalidKey, exprs).Ok?
    requires config.options.Some? && config.options.value.annotations.Some?
    requires k in config.options.value.annotations.value
    ensures Get(Generated(config, loaded, invalidKey, exprs).value, MetadataAnnotationsPath + [k])
            == Some(Str(config.options.value.annotations.value[k]))
  {
    var opts := config.options.value;
    var m := WithOwnMeta(Template, config.options);
    var a := WithLabels(Template, opts.annotations, MetadataAnnotationsPath);
    var q := MetadataAnnotationsPath + [k];
    WithLabelsGet(Template, opts.annotations.value, MetadataAnnotationsPath, k);
    assert MetadataLabelsPath[1] != q[1];
    WithLabelsOther(a, opts.labels, MetadataLabelsPath, q);
    assert K8sNamePath[1] != q[1];
    SetAtOther(m, K8sNamePath, q, Plain(config.name));
    GeneratedKeeps(config, loaded, invalidKey, exprs, q);
  }
}
