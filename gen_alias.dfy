/** The fixed pieces the ResourceDistribution generator writes with
    (cmd/resourcedistributiongenerator/generator/alias.go): the document it starts
    from, the field names it sets and the paths it sets them at. */
module GenAlias {
  import opened Yaml

  /** The parsed template: a ResourceDistribution whose resource is a core/v1 object. */
  const Template: Node :=
    Mapping([
      Field("apiVersion", Str("apps.kruise.io/v1alpha1")),
      Field("kind", Str("ResourceDistribution")),
      Field("spec", Mapping([
        Field("resource", Mapping([
          Field("apiVersion", Str("v1"))]))]))])

  const KindField := "kind"
  const NameField := "name"
  const ListField := "list"
  const AllNamespacesField := "allNamespaces"
  const ImmutableField := "immutable"
  const TypeField := "type"
  const MatchExpressionsField := "matchExpressions"
  const KeyField := "key"
  const OperatorField := "operator"
  const ValuesField := "values"

  /** kyaml's `DataField` and `BinaryDataField`. */
  const DataField := "data"
  const BinaryDataField := "binaryData"

  const MetadataLabelsPath: seq<string> := ["metadata", "labels"]
  const MetadataAnnotationsPath: seq<string> := ["metadata", "annotations"]
  const ResourcePath: seq<string> := ["spec", "resource"]
  const MetadataPath: seq<string> := ["spec", "resource", "metadata"]
  const ResourceLabelsPath: seq<string> := ["spec", "resource", "metadata", "labels"]
  const ResourceAnnotationsPath: seq<string> := ["spec", "resource", "metadata", "annotations"]
  const TargetsPath: seq<string> := ["spec", "targets"]
  const IncludedNamespacesPath: seq<string> := ["spec", "targets", "includedNamespaces"]
  const ExcludedNamespacesPath: seq<string> := ["spec", "targets", "excludedNamespaces"]
  const NamespaceLabelSelectorPath: seq<string> := ["spec", "targets", "namespaceLabelSelector"]
  const MatchLabelsPath: seq<string> := ["spec", "targets", "namespaceLabelSelector", "matchLabels"]
}
