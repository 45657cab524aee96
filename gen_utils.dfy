/** How the ResourceDistribution generator fills in `spec.resource`
    (cmd/resourcedistributiongenerator/generator/utils.go): the key/value data of the
    ConfigMap or Secret to distribute, its kind, name, type, labels, annotations and
    immutability, each written into the document in place. */
module GenUtils {
  import opened Wrappers
  import opened Strings
  import opened Yaml
  import opened Base64
  import opened GenAlias

  /** What a sequence of edits leaves behind: the edited document and the error that
      stopped it, if one did. */
  datatype Outcome = Outcome(root: Node, err: Option<string>)

  /** kustomize's `GeneratorOptions`; a nil map is `None`. */
  datatype GeneratorOptions = GeneratorOptions(
    labels: Option<map<string, string>>,
    annotations: Option<map<string, string>>,
    immutable: bool)

  /** The resource part of the plugin configuration. The key/value sources are read
      from files and literals by kustomize's loader, which is not part of this model:
      what the loader returns is a parameter of the operations that use it. */
  datatype ResourceArgs = ResourceArgs(
    resourceName: string,
    resourceKind: string,
    resourceOptions: Option<GeneratorOptions>,
    secretType: string)

  // ---------------------------------------------------------------- labels and annotations

  /** The fields of a map in increasing key order. */
  function SortedFields(m: map<string, Node>): seq<Field>
  {
    var keys := SortedKeys(m);
    seq(|keys|, i requires 0 <= i < |keys| => Field(keys[i], m[keys[i]]))
  }

  /** The `i`-th sorted field is the `i`-th key with its value. */
  lemma SortedFieldsAt(m: map<string, Node>, i: int)
    requires 0 <= i < |SortedKeys(m)|
    ensures |SortedFields(m)| == |SortedKeys(m)|
    ensures SortedFields(m)[i] == Field(SortedKeys(m)[i], m[SortedKeys(m)[i]])
  {
  }

  lemma SortedFieldsOrdered(m: map<string, Node>)
    ensures var r := SortedFields(m);
            DistinctNames(r) && forall i, j :: 0 <= i < j < |r| ==> Less(r[i].name, r[j].name)
  {
    var keys := SortedKeys(m);
    var r := SortedFields(m);
    forall i, j | 0 <= i < j < |r| ensures r[i].name != r[j].name {
      StrictlySortedDistinct(keys, i, j);
    }
  }

  lemma SortedFieldsEntries(m: map<string, Node>)
    ensures var r := SortedFields(m);
            forall i :: 0 <= i < |r| ==> r[i].name in m && r[i].value == m[r[i].name]
  {
  }

  /** Where a key of the map sits among the sorted fields. */
  lemma SortedFieldsIndex(m: map<string, Node>, k: string) returns (i: int)
    requires k in m
    ensures 0 <= i < |SortedFields(m)| && SortedFields(m)[i] == Field(k, m[k])
  {
    var keys := SortedKeys(m);
    i :| 0 <= i < |keys| && keys[i] == k;
  }

  /** The sorted fields have distinct names in increasing order, one for each key of
      the map, each with the key's value. */
  lemma SortedFieldsFacts(m: map<string, Node>)
    ensures var r := SortedFields(m);
            DistinctNames(r) &&
            (forall i, j :: 0 <= i < j < |r| ==> Less(r[i].name, r[j].name)) &&
            (forall i :: 0 <= i < |r| ==> r[i].name in m && r[i].value == m[r[i].name]) &&
            (forall k :: k in m ==> exists i :: 0 <= i < |r| && r[i].name == k)
  {
    SortedFieldsOrdered(m);
    SortedFieldsEntries(m);
    forall k | k in m ensures exists i :: 0 <= i < |SortedFields(m)| && SortedFields(m)[i].name == k {
      var i := SortedFieldsIndex(m, k);
    }
  }

  /** Each label or annotation as a `!!str` scalar. */
  function StrValues(m: map<string, string>): map<string, Node>
  {
    map k | k in m :: Str(m[k])
  }

  /** `setLabelsOrAnnotations`: every entry set below `path`, in key order; nothing
      for a nil map. */
  function WithLabels(n: Node, m: Option<map<string, string>>, path: seq<string>): Node
  {
    match m
    case None => n
    case Some(m) => SetAll(n, FieldEdits(path, SortedFields(StrValues(m))))
  }

  /** Every label ends up at its key below `path`. */
  lemma WithLabelsGet(n: Node, m: map<string, string>, path: seq<string>, k: string)
    requires k in m
    ensures Get(WithLabels(n, Some(m), path), path + [k]) == Some(Str(m[k]))
  {
    var fields := SortedFields(StrValues(m));
    var edits := FieldEdits(path, fields);
    SortedFieldsOrdered(StrValues(m));
    FieldEditsDiverge(path, fields);
    SetAllGet(n, edits);
    var i := SortedFieldsIndex(StrValues(m), k);
    assert edits[i] == Edit(path + [k], Str(m[k]));
  }

  /** Labels set where the mapping has none of their keys yet come after its existing
      fields, in increasing key order. */
  lemma WithLabelsAppends(n: Node, m: map<string, string>, path: seq<string>)
    requires forall k :: k in m ==> FindField(FieldsAt(n, path), k).None?
    ensures FieldsAt(WithLabels(n, Some(m), path), path) == FieldsAt(n, path) + SortedFields(StrValues(m))
  {
    SortedFieldsOrdered(StrValues(m));
    SortedFieldsEntries(StrValues(m));
    FieldEditsAppend(n, path, SortedFields(StrValues(m)));
  }

  /** Setting labels below `path` touches nothing on a path that parts ways with it. */
  lemma WithLabelsOther(n: Node, m: Option<map<string, string>>, path: seq<string>, q: seq<string>)
    requires Diverge(path, q)
    ensures Get(WithLabels(n, m, path), q) == Get(n, q)
  {
    if m.Some? {
      var edits := FieldEdits(path, SortedFields(StrValues(m.value)));
      forall i | 0 <= i < |edits| ensures Diverge(edits[i].path, q) {
        DivergeExtend(path, [SortedFields(StrValues(m.value))[i].name], q);
      }
      SetAllOther(n, edits, q);
    }
  }

  /** One turn of a loop that sets a map's entries below `parent` in key order makes
      one more of the edits. */
  lemma SortedFieldsStep(made: Node, parent: seq<string>, vals: map<string, Node>, i: int, before: Node)
    requires 0 <= i < |SortedKeys(vals)|
    requires before == SetAll(made, FieldEdits(parent, SortedFields(vals))[..i])
    ensures SetAt(before, parent + [SortedKeys(vals)[i]], vals[SortedKeys(vals)[i]])
            == SetAll(made, FieldEdits(parent, SortedFields(vals))[..i + 1])
  {
    var edits := FieldEdits(parent, SortedFields(vals));
    SortedFieldsAt(vals, i);
    SetAllStep(made, edits, i);
  }

  /** `setLabelsOrAnnotations(rn, m, path)`: one `SetMapField` per key, in key order. */
  method SetLabelsOrAnnotations(rn: RNode, m: Option<map<string, string>>, path: seq<string>)
    modifies rn
    ensures rn.root == WithLabels(old(rn.root), m, path)
  {
    if m.None? {
      return;
    }
    var values := m.value;
    var keys := SortedKeys(values);
    assert StrValues(values).Keys == values.Keys;
    ghost var edits := FieldEdits(path, SortedFields(StrValues(values)));
    for i := 0 to |keys|
      invariant rn.root == SetAll(old(rn.root), edits[..i])
    {
      var k := keys[i];
      ghost var before := rn.root;
      rn.SetMapField(Str(values[k]), path + [k]);
      SortedFieldsStep(old(rn.root), path, StrValues(values), i, before);
    }
    assert edits[..|keys|] == edits;
  }

  // ---------------------------------------------------------------- kind, name, type, immutable

  const ResourceKindError := "resourceKind must be ConfigMap or Secret "
  const ResourceNameError := "a ResourceDistribution must have a resource name "
  const DefaultSecretType := "Opaque"

  predicate ValidKind(kind: string) { kind == "Secret" || kind == "ConfigMap" }

  /** `setResourceKind`: only a Secret or a ConfigMap is accepted, and nothing is
      written for anything else. */
  method SetResourceKind(rn: RNode, kind: string) returns (err: Option<string>)
    modifies rn
    ensures err.None? <==> ValidKind(kind)
    ensures err.Some? ==> err.value == ResourceKindError && rn.root == old(rn.root)
    ensures err.None? ==> rn.root == SetAt(old(rn.root), ResourcePath + [KindField], Str(kind))
  {
    if kind == "" || (kind != "Secret" && kind != "ConfigMap") {
      return Some(ResourceKindError);
    }
    rn.SetMapField(Str(kind), ResourcePath + [KindField]);
    return None;
  }

  /** `setResourceName`: the empty name is refused before anything is written. */
  method SetResourceName(rn: RNode, name: string) returns (err: Option<string>)
    modifies rn
    ensures err.None? <==> name != ""
    ensures err.Some? ==> err.value == ResourceNameError && rn.root == old(rn.root)
    ensures err.None? ==> rn.root == SetAt(old(rn.root), MetadataPath + [NameField], Str(name))
  {
    if name == "" {
      return Some(ResourceNameError);
    }
    rn.SetMapField(Str(name), MetadataPath + [NameField]);
    return None;
  }

  /** The type a Secret gets: the one given, or "Opaque". */
  function SecretType(t: string): (r: string)
    ensures r != ""
    ensures t != "" ==> r == t
  {
    if t != "" then t else DefaultSecretType
  }

  /** `setResourceType`: a Secret gets a type; any other kind is left without one. */
  method SetResourceType(rn: RNode, args: ResourceArgs)
    modifies rn
    ensures args.resourceKind == "Secret" ==>
              rn.root == SetAt(old(rn.root), ResourcePath + [TypeField], Str(SecretType(args.secretType)))
    ensures args.resourceKind != "Secret" ==> rn.root == old(rn.root)
  {
    if args.resourceKind == "Secret" {
      var t := "Opaque";
      if args.secretType != "" {
        t := args.secretType;
      }
      rn.SetMapField(Str(t), ResourcePath + [TypeField]);
    }
  }

  /** The `!!bool` scalar `true`. */
  const TrueNode := Scalar("true", BoolTag, PlainStyle)

  /** `setImmutable`: `immutable: true` only when options are given and ask for it. */
  function WithImmutable(n: Node, opts: Option<GeneratorOptions>): Node
  {
    if opts.Some? && opts.value.immutable then SetAt(n, ResourcePath + [ImmutableField], TrueNode) else n
  }

  method SetImmutable(rn: RNode, opts: Option<GeneratorOptions>)
    modifies rn
    ensures rn.root == WithImmutable(old(rn.root), opts)
  {
    if opts.None? {
      return;
    }
    if opts.value.immutable {
      rn.SetMapField(TrueNode, ResourcePath + [ImmutableField]);
    }
  }

  // ---------------------------------------------------------------- UTF-8

  /** A continuation byte, `10xxxxxx`. */
  predicate Tail(b: byte) { 0x80 <= b <= 0xBF }

  /** The length of the well-formed character at the start of `s` (the UTF8-char rule
      of section 4 of RFC 3629), or 0 when `s` does not start with one. */
  function CharLen(s: seq<byte>): (r: nat)
    requires s != []
    ensures r <= 4 && r <= |s|
  {
    var b := s[0];
    if b < 0x80 then 1
    else if 0xC2 <= b <= 0xDF then (if |s| >= 2 && Tail(s[1]) then 2 else 0)
    else if b == 0xE0 then (if |s| >= 3 && 0xA0 <= s[1] <= 0xBF && Tail(s[2]) then 3 else 0)
    else if 0xE1 <= b <= 0xEC || 0xEE <= b <= 0xEF then
      (if |s| >= 3 && Tail(s[1]) && Tail(s[2]) then 3 else 0)
    else if b == 0xED then (if |s| >= 3 && 0x80 <= s[1] <= 0x9F && Tail(s[2]) then 3 else 0)
    else if b == 0xF0 then
      (if |s| >= 4 && 0x90 <= s[1] <= 0xBF && Tail(s[2]) && Tail(s[3]) then 4 else 0)
    else if 0xF1 <= b <= 0xF3 then
      (if |s| >= 4 && Tail(s[1]) && Tail(s[2]) && Tail(s[3]) then 4 else 0)
    else if b == 0xF4 then
      (if |s| >= 4 && 0x80 <= s[1] <= 0x8F && Tail(s[2]) && Tail(s[3]) then 4 else 0)
    else 0
  }

  /** `utf8.ValidString`: the bytes are a sequence of well-formed UTF-8 characters. */
  predicate ValidUtf8(s: seq<byte>)
    decreases |s|
  {
    s == [] || (CharLen(s) > 0 && ValidUtf8(s[CharLen(s)..]))
  }

  /** ASCII text is valid UTF-8. */
  lemma {:induction false} AsciiIsValidUtf8(s: seq<byte>)
    requires forall i :: 0 <= i < |s| ==> s[i] < 0x80
    ensures ValidUtf8(s)
    decreases |s|
  {
    if s != [] {
      assert forall i :: 0 <= i < |s[1..]| ==> s[1..][i] == s[i + 1];
      AsciiIsValidUtf8(s[1..]);
    }
  }

  /** The octets C0, C1 and F5 to FF never appear in valid UTF-8 (section 1 of
      RFC 3629), so text holding one of them goes to `binaryData`. */
  lemma {:induction false} NeverAppearing(s: seq<byte>, i: int)
    requires ValidUtf8(s) && 0 <= i < |s|
    ensures s[i] != 0xC0 && s[i] != 0xC1 && s[i] < 0xF5
    decreases |s|
  {
    var len := CharLen(s);
    if i >= len {
      assert s[len..][i - len] == s[i];
      NeverAppearing(s[len..], i - len);
    }
  }

  // ---------------------------------------------------------------- value nodes

  /** A Go string's bytes as the scalar text the YAML node carries. */
  function Text(s: seq<byte>): (r: string)
    ensures |r| == |s|
  {
    seq(|s|, i requires 0 <= i < |s| => (s[i] as int) as char)
  }

  /** The bytes back from text whose every character is a byte, as a reader of the
      output reads a `data` value. */
  function TextBytes(t: string): Option<seq<byte>>
  {
    if forall i :: 0 <= i < |t| ==> t[i] as int < 256
    then Some(seq(|t|, i requires 0 <= i < |t| && t[i] as int < 256 => t[i] as int as byte))
    else None
  }

  /** A scalar that is block literal exactly when it spans several lines. */
  function StrScalar(v: string): (r: Node)
    ensures r.Scalar? && r.value == v && r.tag == StrTag
    ensures r.style == LiteralStyle <==> '\n' in v
  {
    Scalar(v, StrTag, if '\n' in v then LiteralStyle else PlainStyle)
  }

  /** The field a ConfigMap value goes under and the node that holds it. */
  datatype ValueNode = ValueNode(field: string, node: Node)

  /** `makeConfigMapValueRNode`: valid UTF-8 as it is under `data`, anything else
      base64-encoded and wrapped under `binaryData`. */
  function ConfigMapValue(s: seq<byte>): ValueNode
  {
    if ValidUtf8(s) then ValueNode(DataField, StrScalar(Text(s)))
    else ValueNode(BinaryDataField, StrScalar(Wrapped(Encode(s))))
  }

  /** How a consumer reads a ConfigMap value back: `data` as text, `binaryData` as
      base64 with the line breaks ignored. */
  function ReadConfigMapValue(v: ValueNode): Option<seq<byte>>
    requires v.node.Scalar?
  {
    if v.field == DataField then TextBytes(v.node.value)
    else Decode(WithoutNewlines(v.node.value))
  }

  /** Every ConfigMap value reads back as the bytes it was made from. */
  lemma ConfigMapValueRoundTrip(s: seq<byte>)
    ensures ReadConfigMapValue(ConfigMapValue(s)) == Some(s)
  {
    if ValidUtf8(s) {
      var t := Text(s);
      assert forall i :: 0 <= i < |t| ==> t[i] as int < 256;
      assert TextBytes(t).value == s;
    } else {
      WrappedUnwraps(s);
      DecodeEncode(s);
    }
  }

  /** `makeSecretValueRNode`: always base64, wrapped. */
  function SecretValue(s: seq<byte>): Node
  {
    StrScalar(Wrapped(Encode(s)))
  }

  /** A Secret value decodes back to the bytes it was made from. */
  lemma SecretValueRoundTrip(s: seq<byte>)
    ensures Decode(WithoutNewlines(SecretValue(s).value)) == Some(s)
  {
    WrappedUnwraps(s);
    DecodeEncode(s);
  }

  // ---------------------------------------------------------------- the data map

  datatype KvPair = KvPair(key: string, value: seq<byte>)

  const LoadingPrefix := "loading KV pairs: "

  function RepeatedKeyError(name: string, key: string): string
  {
    "configmap " + name + " illegally repeats the key `" + key + "`"
  }

  /** The pairs read one after the other into a map: the first key the validator
      refuses, or the first key seen twice, stops it. `invalidKey` is kustomize's
      key validator (`ErrIfInvalidKey`), which is not part of this model. */
  function DataMap(name: string, pairs: seq<KvPair>, invalidKey: string -> Option<string>)
    : Result<map<string, seq<byte>>>
    decreases |pairs|
  {
    if pairs == [] then Ok(map[])
    else
      match DataMap(name, pairs[..|pairs| - 1], invalidKey)
      case Err(e) => Err(e)
      case Ok(m) =>
        var p := pairs[|pairs| - 1];
        if invalidKey(p.key).Some? then Err(invalidKey(p.key).value)
        else if p.key in m then Err(RepeatedKeyError(name, p.key))
        else Ok(m[p.key := p.value])
  }

  predicate DistinctKeys(pairs: seq<KvPair>)
  {
    forall i, j :: 0 <= i < j < |pairs| ==> pairs[i].key != pairs[j].key
  }

  predicate KeysValid(pairs: seq<KvPair>, invalidKey: string -> Option<string>)
  {
    forall i :: 0 <= i < |pairs| ==> invalidKey(pairs[i].key).None?
  }

  /** `m` holds every pair and nothing else. */
  ghost predicate HoldsPairs(m: map<string, seq<byte>>, pairs: seq<KvPair>)
  {
    (forall k :: k in m <==> exists i :: 0 <= i < |pairs| && pairs[i].key == k) &&
    (forall i :: 0 <= i < |pairs| ==> pairs[i].key in m && m[pairs[i].key] == pairs[i].value)
  }

  /** The map is built exactly when every key is valid and no key repeats, and then
      it holds every pair and nothing else. */
  lemma {:induction false} DataMapOk(name: string, pairs: seq<KvPair>, invalidKey: string -> Option<string>)
    ensures DataMap(name, pairs, invalidKey).Ok? <==> KeysValid(pairs, invalidKey) && DistinctKeys(pairs)
    ensures DataMap(name, pairs, invalidKey).Ok? ==> HoldsPairs(DataMap(name, pairs, invalidKey).value, pairs)
    decreases |pairs|
  {
    if pairs != [] {
      DataMapOk(name, pairs[..|pairs| - 1], invalidKey);
      var init := pairs[..|pairs| - 1];
      assert forall i :: 0 <= i < |init| ==> init[i] == pairs[i];
      if DataMap(name, init, invalidKey).Ok? {
        DataMapOkStep(name, pairs, invalidKey);
      }
    }
  }

  /** `DataMapOk` for one more pair after a prefix that was accepted. */
  lemma DataMapOkStep(name: string, pairs: seq<KvPair>, invalidKey: string -> Option<string>)
    requires pairs != []
    requires var init := pairs[..|pairs| - 1];
             DataMap(name, init, invalidKey).Ok? && KeysValid(init, invalidKey) && DistinctKeys(init) &&
             HoldsPairs(DataMap(name, init, invalidKey).value, init)
    ensures DataMap(name, pairs, invalidKey).Ok? <==> KeysValid(pairs, invalidKey) && DistinctKeys(pairs)
    ensures DataMap(name, pairs, invalidKey).Ok? ==> HoldsPairs(DataMap(name, pairs, invalidKey).value, pairs)
  {
    var init, p := pairs[..|pairs| - 1], pairs[|pairs| - 1];
    var m := DataMap(name, init, invalidKey).value;
    assert pairs == init + [p];
    if invalidKey(p.key).Some? {
      assert !KeysValid(pairs, invalidKey);
    } else if p.key in m {
      DataMapRepeat(init, p, m);
    } else {
      DataMapAccept(init, p, m);
      assert DataMap(name, pairs, invalidKey) == Ok(m[p.key := p.value]);
      assert KeysValid(pairs, invalidKey) by {
        assert forall i :: 0 <= i < |init| ==> init[i] == pairs[i];
      }
    }
  }

  /** A key already in the map repeats one of the earlier pairs. */
  lemma DataMapRepeat(init: seq<KvPair>, p: KvPair, m: map<string, seq<byte>>)
    requires HoldsPairs(m, init) && p.key in m
    ensures !DistinctKeys(init + [p])
  {
    var i :| 0 <= i < |init| && init[i].key == p.key;
    assert (init + [p])[i].key == (init + [p])[|init|].key;
  }

  /** A new key extends the map with one more pair. */
  lemma DataMapAccept(init: seq<KvPair>, p: KvPair, m: map<string, seq<byte>>)
    requires HoldsPairs(m, init) && DistinctKeys(init) && p.key !in m
    ensures DistinctKeys(init + [p]) && HoldsPairs(m[p.key := p.value], init + [p])
  {
    var pairs := init + [p];
    assert forall i :: 0 <= i < |init| ==> pairs[i] == init[i] && init[i].key != p.key;
    var m' := m[p.key := p.value];
    forall k | k in m' ensures exists i :: 0 <= i < |pairs| && pairs[i].key == k {
      if k != p.key {
        var i :| 0 <= i < |init| && init[i].key == k;
        assert pairs[i].key == k;
      } else {
        assert pairs[|init|].key == k;
      }
    }
  }

  /** A prefix that is refused decides the whole: the first problem is reported. */
  lemma {:induction false} DataMapErrPersists(name: string, pairs: seq<KvPair>, j: int,
                                              invalidKey: string -> Option<string>)
    requires 0 <= j <= |pairs| && DataMap(name, pairs[..j], invalidKey).Err?
    ensures DataMap(name, pairs, invalidKey) == DataMap(name, pairs[..j], invalidKey)
    decreases |pairs| - j
  {
    if j < |pairs| {
      assert pairs[..j + 1][..j] == pairs[..j];
      DataMapErrPersists(name, pairs, j + 1, invalidKey);
    } else {
      assert pairs[..j] == pairs;
    }
  }

  /** `makeValidatedDataMap`: a loader failure is reported with a prefix; otherwise
      the pairs it loaded are checked as `DataMap` says. */
  function ValidatedDataMap(name: string, loaded: Result<seq<KvPair>>, invalidKey: string -> Option<string>)
    : Result<map<string, seq<byte>>>
  {
    match loaded
    case Err(e) => Err(LoadingPrefix + e)
    case Ok(pairs) => DataMap(name, pairs, invalidKey)
  }

  /** The loop of `makeValidatedDataMap` over the loaded pairs, recording each key in
      `knownKeys`. */
  method MakeValidatedDataMap(name: string, loaded: Result<seq<KvPair>>, invalidKey: string -> Option<string>)
    returns (r: Result<map<string, seq<byte>>>)
    ensures r == ValidatedDataMap(name, loaded, invalidKey)
  {
    if loaded.Err? {
      return Err(LoadingPrefix + loaded.error);
    }
    var pairs := loaded.value;
    var knownKeys: map<string, seq<byte>> := map[];
    for i := 0 to |pairs|
      invariant DataMap(name, pairs[..i], invalidKey) == Ok(knownKeys)
    {
      var p := pairs[i];
      assert pairs[..i + 1][..i] == pairs[..i];
      var keyErr := invalidKey(p.key);
      if keyErr.Some? {
        DataMapErrPersists(name, pairs, i + 1, invalidKey);
        return Err(keyErr.value);
      }
      if p.key in knownKeys {
        DataMapErrPersists(name, pairs, i + 1, invalidKey);
        return Err(RepeatedKeyError(name, p.key));
      }
      knownKeys := knownKeys[p.key := p.value];
    }
    assert pairs[..|pairs|] == pairs;
    return Ok(knownKeys);
  }

  // ---------------------------------------------------------------- loading the data

  /** The edits `loadMapIntoConfigMapData` makes: each key, in increasing order, under
      the field its value belongs in. */
  function ConfigMapEdits(m: map<string, seq<byte>>): seq<Edit>
  {
    var keys := SortedKeys(m);
    seq(|keys|, i requires 0 <= i < |keys| =>
      Edit(ResourcePath + [ConfigMapValue(m[keys[i]]).field] + [keys[i]], ConfigMapValue(m[keys[i]]).node))
  }

  function WithConfigMapData(n: Node, m: map<string, seq<byte>>): Node
  {
    SetAll(n, ConfigMapEdits(m))
  }

  lemma ConfigMapEditAt(m: map<string, seq<byte>>, i: int)
    requires 0 <= i < |SortedKeys(m)|
    ensures var k := SortedKeys(m)[i];
            var e := ConfigMapEdits(m)[i];
            e.path == ResourcePath + [ConfigMapValue(m[k]).field] + [k] && e.node == ConfigMapValue(m[k]).node
            && |e.path| == 4 && e.path[3] == k
  {
  }

  /** Every ConfigMap key ends up under `data` or `binaryData` with its value node. */
  lemma WithConfigMapDataGet(n: Node, m: map<string, seq<byte>>, k: string)
    requires k in m
    ensures Get(WithConfigMapData(n, m), ResourcePath + [ConfigMapValue(m[k]).field] + [k])
            == Some(ConfigMapValue(m[k]).node)
  {
    var keys := SortedKeys(m);
    var edits := ConfigMapEdits(m);
    forall i, j | 0 <= i < j < |edits| ensures Diverge(edits[i].path, edits[j].path) {
      LessAsymmetric(keys[i], keys[j]);
      ConfigMapEditAt(m, i);
      ConfigMapEditAt(m, j);
      DivergeAt(edits[i].path, edits[j].path, 3);
    }
    SetAllGet(n, edits);
    var i :| 0 <= i < |keys| && keys[i] == k;
    ConfigMapEditAt(m, i);
  }

  /** `yaml.LookupCreate(MappingNode, path...)` followed by `SetField(k, v)` on the
      mapping it returns is setting `v` at `path + [k]`. */
  lemma {:induction false} SetAtLookupCreate(n: Node, path: seq<string>, k: string, v: Node)
    ensures SetAt(LookupCreate(n, path), path + [k], v) == SetAt(n, path + [k], v)
    decreases |path|
  {
    if path == [] {
      assert path + [k] == [k];
    } else {
      var fields := if n.Mapping? then n.fields else [];
      var child := FindField(fields, path[0]).GetOr(EmptyMapping);
      assert (path + [k])[0] == path[0] && (path + [k])[1..] == path[1..] + [k];
      SetAtLookupCreate(child, path[1..], k, v);
      PutFieldSpec(fields, path[0], LookupCreate(child, path[1..]));
      PutFieldTwice(fields, path[0], LookupCreate(child, path[1..]), SetAt(child, path[1..] + [k], v));
    }
  }

  /** Setting a field twice keeps only the second value. */
  lemma {:induction false} PutFieldTwice(fields: seq<Field>, name: string, a: Node, b: Node)
    ensures PutField(PutField(fields, name, a), name, b) == PutField(fields, name, b)
    decreases |fields|
  {
    if fields != [] && fields[0].name != name {
      PutFieldTwice(fields[1..], name, a, b);
      var once := PutField(fields, name, a);
      assert once[0] == fields[0] && once[1..] == PutField(fields[1..], name, a);
    }
  }

  /** One turn of the `loadMapIntoConfigMapData` loop makes one more of its edits. */
  lemma ConfigMapDataStep(n: Node, m: map<string, seq<byte>>, i: int, before: Node)
    requires 0 <= i < |SortedKeys(m)|
    requires before == SetAll(n, ConfigMapEdits(m)[..i])
    ensures var k := SortedKeys(m)[i];
            var v := ConfigMapValue(m[k]);
            SetAt(LookupCreate(before, ResourcePath + [v.field]), ResourcePath + [v.field] + [k], v.node)
            == SetAll(n, ConfigMapEdits(m)[..i + 1])
  {
    var k := SortedKeys(m)[i];
    var v := ConfigMapValue(m[k]);
    SetAtLookupCreate(before, ResourcePath + [v.field], k, v.node);
    SetAllStep(n, ConfigMapEdits(m), i);
  }

  /** `loadMapIntoConfigMapData`: one `LookupCreate` + `SetField` per key, in key order. */
  method LoadMapIntoConfigMapData(m: map<string, seq<byte>>, rn: RNode)
    modifies rn
    ensures rn.root == WithConfigMapData(old(rn.root), m)
  {
    var keys := SortedKeys(m);
    ghost var edits := ConfigMapEdits(m);
    for i := 0 to |keys|
      invariant rn.root == SetAll(old(rn.root), edits[..i])
    {
      var k := keys[i];
      var v := ConfigMapValue(m[k]);
      ghost var before := rn.root;
      rn.LookupCreateMapping(ResourcePath + [v.field]);
      rn.SetMapField(v.node, ResourcePath + [v.field] + [k]);
      ConfigMapDataStep(old(rn.root), m, i, before);
    }
    assert edits[..|keys|] == edits;
  }

  const DataPath: seq<string> := ResourcePath + [DataField]

  /** Each Secret value, encoded. */
  function SecretValues(m: map<string, seq<byte>>): map<string, Node>
  {
    map k | k in m :: SecretValue(m[k])
  }

  /** `loadMapIntoSecretData`: the `data` mapping is made if missing, then each key
      is set in it in increasing order. */
  function WithSecretData(n: Node, m: map<string, seq<byte>>): Node
  {
    SetAll(LookupCreate(n, DataPath), FieldEdits(DataPath, SortedFields(SecretValues(m))))
  }

  /** Every Secret key ends up under `data` with its encoded value. */
  lemma WithSecretDataGet(n: Node, m: map<string, seq<byte>>, k: string)
    requires k in m
    ensures Get(WithSecretData(n, m), DataPath + [k]) == Some(SecretValue(m[k]))
  {
    var fields := SortedFields(SecretValues(m));
    var edits := FieldEdits(DataPath, fields);
    SortedFieldsOrdered(SecretValues(m));
    FieldEditsDiverge(DataPath, fields);
    SetAllGet(LookupCreate(n, DataPath), edits);
    var i := SortedFieldsIndex(SecretValues(m), k);
    assert edits[i] == Edit(DataPath + [k], SecretValue(m[k]));
  }

  /** Into a `data` mapping that has none of the keys yet, the Secret values are
      appended in increasing key order; without one, `data` holds exactly them. */
  lemma WithSecretDataFields(n: Node, m: map<string, seq<byte>>)
    requires forall k :: k in m ==> FindField(FieldsAt(n, DataPath), k).None?
    ensures FieldsAt(WithSecretData(n, m), DataPath) == FieldsAt(n, DataPath) + SortedFields(SecretValues(m))
  {
    var made := LookupCreate(n, DataPath);
    LookupCreateKeeps(n, DataPath);
    assert FieldsAt(made, DataPath) == FieldsAt(n, DataPath);
    SortedFieldsOrdered(SecretValues(m));
    SortedFieldsEntries(SecretValues(m));
    FieldEditsAppend(made, DataPath, SortedFields(SecretValues(m)));
  }

  method LoadMapIntoSecretData(m: map<string, seq<byte>>, rn: RNode)
    modifies rn
    ensures rn.root == WithSecretData(old(rn.root), m)
  {
    rn.LookupCreateMapping(DataPath);
    ghost var made := rn.root;
    var keys := SortedKeys(m);
    assert SecretValues(m).Keys == m.Keys;
    ghost var edits := FieldEdits(DataPath, SortedFields(SecretValues(m)));
    for i := 0 to |keys|
      invariant rn.root == SetAll(made, edits[..i])
    {
      var k := keys[i];
      ghost var before := rn.root;
      rn.SetMapField(SecretValue(m[k]), DataPath + [k]);
      SortedFieldsStep(made, DataPath, SecretValues(m), i, before);
    }
    assert edits[..|keys|] == edits;
  }

  /** `setData`: the validated data go to a ConfigMap's fields for the kind
      "ConfigMap", and to a Secret's `data` for every other kind. */
  function DataOutcome(n: Node, args: ResourceArgs, loaded: Result<seq<KvPair>>,
                       invalidKey: string -> Option<string>): Outcome
  {
    match ValidatedDataMap(args.resourceName, loaded, invalidKey)
    case Err(e) => Outcome(n, Some(e))
    case Ok(m) =>
      if args.resourceKind == "ConfigMap" then Outcome(WithConfigMapData(n, m), None)
      else Outcome(WithSecretData(n, m), None)
  }

  method SetData(rn: RNode, args: ResourceArgs, loaded: Result<seq<KvPair>>,
                 invalidKey: string -> Option<string>) returns (err: Option<string>)
    modifies rn
    ensures rn.root == DataOutcome(old(rn.root), args, loaded, invalidKey).root
    ensures err == DataOutcome(old(rn.root), args, loaded, invalidKey).err
  {
    var m := MakeValidatedDataMap(args.resourceName, loaded, invalidKey);
    if m.Err? {
      return Some(m.error);
    }
    if args.resourceKind == "ConfigMap" {
      LoadMapIntoConfigMapData(m.value, rn);
    } else {
      LoadMapIntoSecretData(m.value, rn);
    }
    return None;
  }

  // ---------------------------------------------------------------- the whole resource

  /** The kind, then the resource's own annotations and labels when options are
      given. */
  function WithKindAndMeta(n: Node, args: ResourceArgs): Node
  {
    var n1 := SetAt(n, ResourcePath + [KindField], Str(args.resourceKind));
    match args.resourceOptions
    case None => n1
    case Some(opts) =>
      WithLabels(WithLabels(n1, opts.annotations, ResourceAnnotationsPath), opts.labels, ResourceLabelsPath)
  }

  /** The name, then the type of a Secret. */
  function WithNameAndType(n: Node, args: ResourceArgs): Node
  {
    var n1 := SetAt(n, MetadataPath + [NameField], Str(args.resourceName));
    if args.resourceKind == "Secret" then SetAt(n1, ResourcePath + [TypeField], Str(SecretType(args.secretType)))
    else n1
  }

  /** `setResource`: data, immutability, kind, annotations and labels, name and type,
      in that order; the first error stops it. */
  function ResourceOutcome(n: Node, args: ResourceArgs, loaded: Result<seq<KvPair>>,
                           invalidKey: string -> Option<string>): Outcome
  {
    var data := DataOutcome(n, args, loaded, invalidKey);
    if data.err.Some? then data
    else
      var n2 := WithImmutable(data.root, args.resourceOptions);
      if !ValidKind(args.resourceKind) then Outcome(n2, Some(ResourceKindError))
      else
        var n4 := WithKindAndMeta(n2, args);
        if args.resourceName == "" then Outcome(n4, Some(ResourceNameError))
        else Outcome(WithNameAndType(n4, args), None)
  }

  method SetResource(rn: RNode, args: ResourceArgs, loaded: Result<seq<KvPair>>,
                     invalidKey: string -> Option<string>) returns (err: Option<string>)
    modifies rn
    ensures rn.root == ResourceOutcome(old(rn.root), args, loaded, invalidKey).root
    ensures err == ResourceOutcome(old(rn.root), args, loaded, invalidKey).err
  {
    err := SetData(rn, args, loaded, invalidKey);
    if err.Some? {
      return;
    }
    SetImmutable(rn, args.resourceOptions);
    err := SetResourceKind(rn, args.resourceKind);
    if err.Some? {
      return;
    }
    if args.resourceOptions.Some? {
      SetLabelsOrAnnotations(rn, args.resourceOptions.value.annotations, ResourceAnnotationsPath);
      SetLabelsOrAnnotations(rn, args.resourceOptions.value.labels, ResourceLabelsPath);
    }
    err := SetResourceName(rn, args.resourceName);
    if err.Some? {
      return;
    }
    SetResourceType(rn, args);
  }

  /** `setResource` fails exactly when the data cannot be loaded, the kind is neither
      Secret nor ConfigMap, or the name is empty, and reports the first of these. */
  lemma ResourceErrors(n: Node, args: ResourceArgs, loaded: Result<seq<KvPair>>,
                       invalidKey: string -> Option<string>)
    ensures var o := ResourceOutcome(n, args, loaded, invalidKey);
            var d := ValidatedDataMap(args.resourceName, loaded, invalidKey);
            (o.err.None? <==> d.Ok? && ValidKind(args.resourceKind) && args.resourceName != "") &&
            (d.Err? ==> o.err == Some(d.error)) &&
            (d.Ok? && !ValidKind(args.resourceKind) ==> o.err == Some(ResourceKindError)) &&
            (d.Ok? && ValidKind(args.resourceKind) && args.resourceName == "" ==> o.err == Some(ResourceNameError))
  {
  }

  /** Parting ways at one given step. */
  lemma DivergeAt(p: seq<string>, q: seq<string>, i: int)
    requires 0 <= i < |p| && i < |q| && p[i] != q[i]
    ensures Diverge(p, q)
  {
  }

  /** The kind, annotations and labels touch nothing below `spec.resource` but the
      kind and the metadata. */
  lemma WithKindAndMetaOther(n: Node, args: ResourceArgs, q: seq<string>)
    requires |q| >= 3 && q[2] != KindField && q[2] != "metadata"
    ensures Get(WithKindAndMeta(n, args), q) == Get(n, q)
  {
    var n1 := SetAt(n, ResourcePath + [KindField], Str(args.resourceKind));
    DivergeAt(ResourcePath + [KindField], q, 2);
    SetAtOther(n, ResourcePath + [KindField], q, Str(args.resourceKind));
    if args.resourceOptions.Some? {
      var opts := args.resourceOptions.value;
      DivergeAt(ResourceAnnotationsPath, q, 2);
      DivergeAt(ResourceLabelsPath, q, 2);
      WithLabelsOther(n1, opts.annotations, ResourceAnnotationsPath, q);
      WithLabelsOther(WithLabels(n1, opts.annotations, ResourceAnnotationsPath), opts.labels, ResourceLabelsPath, q);
    }
  }

  /** The kind is in place after the annotations and labels are set. */
  lemma WithKindAndMetaGet(n: Node, args: ResourceArgs)
    ensures Get(WithKindAndMeta(n, args), ResourcePath + [KindField]) == Some(Str(args.resourceKind))
  {
    var kindPath := ResourcePath + [KindField];
    var n1 := SetAt(n, kindPath, Str(args.resourceKind));
    SetAtGet(n, kindPath, Str(args.resourceKind));
    if args.resourceOptions.Some? {
      var opts := args.resourceOptions.value;
      DivergeAt(ResourceAnnotationsPath, kindPath, 2);
      DivergeAt(ResourceLabelsPath, kindPath, 2);
      WithLabelsOther(n1, opts.annotations, ResourceAnnotationsPath, kindPath);
      WithLabelsOther(WithLabels(n1, opts.annotations, ResourceAnnotationsPath), opts.labels, ResourceLabelsPath,
                      kindPath);
    }
  }

  /** The name and type touch nothing below `spec.resource` but the type and the
      metadata. */
  lemma WithNameAndTypeOther(n: Node, args: ResourceArgs, q: seq<string>)
    requires |q| >= 3 && q[2] != TypeField && q[2] != "metadata"
    ensures Get(WithNameAndType(n, args), q) == Get(n, q)
  {
    var n1 := SetAt(n, MetadataPath + [NameField], Str(args.resourceName));
    DivergeAt(MetadataPath + [NameField], q, 2);
    SetAtOther(n, MetadataPath + [NameField], q, Str(args.resourceName));
    if args.resourceKind == "Secret" {
      DivergeAt(ResourcePath + [TypeField], q, 2);
      SetAtOther(n1, ResourcePath + [TypeField], q, Str(SecretType(args.secretType)));
    }
  }

  /** The name is in place, and a Secret's type. */
  lemma WithNameAndTypeGet(n: Node, args: ResourceArgs)
    ensures Get(WithNameAndType(n, args), MetadataPath + [NameField]) == Some(Str(args.resourceName))
    ensures args.resourceKind == "Secret" ==>
              Get(WithNameAndType(n, args), ResourcePath + [TypeField]) == Some(Str(SecretType(args.secretType)))
  {
    var namePath, typePath := MetadataPath + [NameField], ResourcePath + [TypeField];
    var n1 := SetAt(n, namePath, Str(args.resourceName));
    SetAtGet(n, namePath, Str(args.resourceName));
    if args.resourceKind == "Secret" {
      var t := Str(SecretType(args.secretType));
      SetAtGet(n1, typePath, t);
      DivergeAt(typePath, namePath, 2);
      SetAtOther(n1, typePath, namePath, t);
    }
  }

  /** The steps after `setData` touch nothing below `spec.resource` but the
      immutability, the kind, the metadata and the type. */
  lemma AfterDataOther(n: Node, args: ResourceArgs, q: seq<string>)
    requires |q| >= 3 && q[2] != ImmutableField && q[2] != KindField && q[2] != "metadata" && q[2] != TypeField
    ensures Get(WithNameAndType(WithKindAndMeta(WithImmutable(n, args.resourceOptions), args), args), q) == Get(n, q)
  {
    var n2 := WithImmutable(n, args.resourceOptions);
    if args.resourceOptions.Some? && args.resourceOptions.value.immutable {
      DivergeAt(ResourcePath + [ImmutableField], q, 2);
      SetAtOther(n, ResourcePath + [ImmutableField], q, TrueNode);
    }
    WithKindAndMetaOther(n2, args, q);
    WithNameAndTypeOther(WithKindAndMeta(n2, args), args, q);
  }

  /** `setData` writes nothing but below the resource's `data` and `binaryData`. */
  lemma DataOther(n: Node, args: ResourceArgs, loaded: Result<seq<KvPair>>,
                  invalidKey: string -> Option<string>, q: seq<string>)
    requires Diverge(ResourcePath + [DataField], q) && Diverge(ResourcePath + [BinaryDataField], q)
    ensures Get(DataOutcome(n, args, loaded, invalidKey).root, q) == Get(n, q)
  {
    match ValidatedDataMap(args.resourceName, loaded, invalidKey)
    case Err(_) =>
    case Ok(m) =>
      if args.resourceKind == "ConfigMap" {
        var keys := SortedKeys(m);
        var edits := ConfigMapEdits(m);
        forall i | 0 <= i < |edits| ensures Diverge(edits[i].path, q) {
          var v := ConfigMapValue(m[keys[i]]);
          DivergeExtend(ResourcePath + [v.field], [keys[i]], q);
          assert edits[i].path == ResourcePath + [v.field] + [keys[i]];
        }
        SetAllOther(n, edits, q);
      } else {
        var fields := SortedFields(SecretValues(m));
        var edits := FieldEdits(DataPath, fields);
        LookupCreateOther(n, DataPath, q);
        forall i | 0 <= i < |edits| ensures Diverge(edits[i].path, q) {
          DivergeExtend(DataPath, [fields[i].name], q);
        }
        SetAllOther(LookupCreate(n, DataPath), edits, q);
      }
  }

  /** The steps after `setData` write nothing outside `spec.resource`. */
  lemma ImmutableOutside(n: Node, opts: Option<GeneratorOptions>, q: seq<string>)
    requires Diverge(ResourcePath, q)
    ensures Get(WithImmutable(n, opts), q) == Get(n, q)
  {
    DivergeExtend(ResourcePath, [ImmutableField], q);
    SetAtOther(n, ResourcePath + [ImmutableField], q, TrueNode);
  }

  lemma KindAndMetaOutside(n: Node, args: ResourceArgs, q: seq<string>)
    requires Diverge(ResourcePath, q)
    ensures Get(WithKindAndMeta(n, args), q) == Get(n, q)
  {
    DivergeExtend(ResourcePath, [KindField], q);
    var n1 := SetAt(n, ResourcePath + [KindField], Str(args.resourceKind));
    SetAtOther(n, ResourcePath + [KindField], q, Str(args.resourceKind));
    if args.resourceOptions.Some? {
      var opts := args.resourceOptions.value;
      MetadataOutside(n1, opts.annotations, ResourceAnnotationsPath, "annotations", q);
      var n2 := WithLabels(n1, opts.annotations, ResourceAnnotationsPath);
      MetadataOutside(n2, opts.labels, ResourceLabelsPath, "labels", q);
    }
  }

  lemma MetadataOutside(n: Node, m: Option<map<string, string>>, path: seq<string>, field: string, q: seq<string>)
    requires Diverge(ResourcePath, q) && path == MetadataPath + [field]
    ensures Get(WithLabels(n, m, path), q) == Get(n, q)
  {
    assert MetadataPath == ResourcePath + ["metadata"];
    DivergeExtend(ResourcePath, ["metadata"], q);
    DivergeExtend(MetadataPath, [field], q);
    WithLabelsOther(n, m, path, q);
  }

  lemma NameAndTypeOutside(n: Node, args: ResourceArgs, q: seq<string>)
    requires Diverge(ResourcePath, q)
    ensures Get(WithNameAndType(n, args), q) == Get(n, q)
  {
    assert MetadataPath == ResourcePath + ["metadata"];
    DivergeExtend(ResourcePath, ["metadata"], q);
    DivergeExtend(MetadataPath, [NameField], q);
    var n2 := SetAt(n, MetadataPath + [NameField], Str(args.resourceName));
    SetAtOther(n, MetadataPath + [NameField], q, Str(args.resourceName));
    DivergeExtend(ResourcePath, [TypeField], q);
    SetAtOther(n2, ResourcePath + [TypeField], q, Str(SecretType(args.secretType)));
  }

  /** `setResource`, failing or not, writes nothing outside `spec.resource`. */
  lemma ResourceOutside(n: Node, args: ResourceArgs, loaded: Result<seq<KvPair>>,
                        invalidKey: string -> Option<string>, q: seq<string>)
    requires Diverge(ResourcePath, q)
    ensures Get(ResourceOutcome(n, args, loaded, invalidKey).root, q) == Get(n, q)
  {
    DivergeExtend(ResourcePath, [DataField], q);
    DivergeExtend(ResourcePath, [BinaryDataField], q);
    DataOther(n, args, loaded, invalidKey, q);
    var n1 := DataOutcome(n, args, loaded, invalidKey).root;
    var n2 := WithImmutable(n1, args.resourceOptions);
    ImmutableOutside(n1, args.resourceOptions, q);
    KindAndMetaOutside(n2, args, q);
    NameAndTypeOutside(WithKindAndMeta(n2, args), args, q);
  }

  /** A path below `spec.resource` that none of the steps after `setData` writes to:
      whatever `setData` left there is still there when `setResource` succeeds. */
  lemma ResourceKeepsData(n: Node, args: ResourceArgs, loaded: Result<seq<KvPair>>,
                          invalidKey: string -> Option<string>, q: seq<string>)
    requires ResourceOutcome(n, args, loaded, invalidKey).err.None?
    requires |q| >= 3 && q[2] != ImmutableField && q[2] != KindField && q[2] != "metadata" && q[2] != TypeField
    ensures Get(ResourceOutcome(n, args, loaded, invalidKey).root, q)
            == Get(DataOutcome(n, args, loaded, invalidKey).root, q)
  {
    ResourceRoot(n, args, loaded, invalidKey);
    AfterDataOther(DataOutcome(n, args, loaded, invalidKey).root, args, q);
  }

  /** On success the steps after `setData` all ran. */
  lemma ResourceRoot(n: Node, args: ResourceArgs, loaded: Result<seq<KvPair>>,
                     invalidKey: string -> Option<string>)
    requires ResourceOutcome(n, args, loaded, invalidKey).err.None?
    ensures ResourceOutcome(n, args, loaded, invalidKey).root
            == WithNameAndType(WithKindAndMeta(WithImmutable(DataOutcome(n, args, loaded, invalidKey).root,
                                                             args.resourceOptions), args), args)
  {
  }

  lemma DataOutcomeRoot(n: Node, args: ResourceArgs, loaded: Result<seq<KvPair>>,
                        invalidKey: string -> Option<string>, m: map<string, seq<byte>>)
    requires ValidatedDataMap(args.resourceName, loaded, invalidKey) == Ok(m)
    ensures DataOutcome(n, args, loaded, invalidKey).root
            == if args.resourceKind == "ConfigMap" then WithConfigMapData(n, m) else WithSecretData(n, m)
  {
  }

  /** The resource's `data` and `binaryData` fields are none of the fields the steps
      after `setData` write. */
  lemma DataFieldsClear(field: string, k: string)
    requires field == DataField || field == BinaryDataField
    ensures var q := ResourcePath + [field] + [k];
            |q| >= 3 && q[2] != ImmutableField && q[2] != KindField && q[2] != "metadata" && q[2] != TypeField
  {
    var q := ResourcePath + [field] + [k];
    assert q[2] == field;
    assert field[0] != ImmutableField[0] && field[0] != KindField[0] && field[0] != "metadata"[0] && field[0] != TypeField[0];
  }

  lemma ResourceDataConfigMap(n: Node, args: ResourceArgs, loaded: Result<seq<KvPair>>,
                              invalidKey: string -> Option<string>, m: map<string, seq<byte>>, k: string)
    requires ResourceOutcome(n, args, loaded, invalidKey).err.None? && args.resourceKind == "ConfigMap"
    requires ValidatedDataMap(args.resourceName, loaded, invalidKey) == Ok(m) && k in m
    ensures Get(ResourceOutcome(n, args, loaded, invalidKey).root, ResourcePath + [ConfigMapValue(m[k]).field] + [k])
            == Some(ConfigMapValue(m[k]).node)
  {
    var q := ResourcePath + [ConfigMapValue(m[k]).field] + [k];
    DataOutcomeRoot(n, args, loaded, invalidKey, m);
    WithConfigMapDataGet(n, m, k);
    DataFieldsClear(ConfigMapValue(m[k]).field, k);
    ResourceKeepsData(n, args, loaded, invalidKey, q);
  }

  lemma ResourceDataSecret(n: Node, args: ResourceArgs, loaded: Result<seq<KvPair>>,
                           invalidKey: string -> Option<string>, m: map<string, seq<byte>>, k: string)
    requires ResourceOutcome(n, args, loaded, invalidKey).err.None? && args.resourceKind != "ConfigMap"
    requires ValidatedDataMap(args.resourceName, loaded, invalidKey) == Ok(m) && k in m
    ensures Get(ResourceOutcome(n, args, loaded, invalidKey).root, DataPath + [k]) == Some(SecretValue(m[k]))
  {
    DataOutcomeRoot(n, args, loaded, invalidKey, m);
    WithSecretDataGet(n, m, k);
    DataFieldsClear(DataField, k);
    ResourceKeepsData(n, args, loaded, invalidKey, DataPath + [k]);
  }

  /** A successful `setResource` leaves every ConfigMap key under `data` or
      `binaryData`, and every Secret key under `data`, with its value. */
  lemma ResourceData(n: Node, args: ResourceArgs, loaded: Result<seq<KvPair>>,
                     invalidKey: string -> Option<string>, k: string)
    requires ResourceOutcome(n, args, loaded, invalidKey).err.None?
    requires k in ValidatedDataMap(args.resourceName, loaded, invalidKey).value
    ensures var m := ValidatedDataMap(args.resourceName, loaded, invalidKey).value;
            var root := ResourceOutcome(n, args, loaded, invalidKey).root;
            if args.resourceKind == "ConfigMap"
            then Get(root, ResourcePath + [ConfigMapValue(m[k]).field] + [k]) == Some(ConfigMapValue(m[k]).node)
            else Get(root, DataPath + [k]) == Some(SecretValue(m[k]))
  {
    var m := ValidatedDataMap(args.resourceName, loaded, invalidKey).value;
    if args.resourceKind == "ConfigMap" {
      ResourceDataConfigMap(n, args, loaded, invalidKey, m, k);
    } else {
      ResourceDataSecret(n, args, loaded, invalidKey, m, k);
    }
  }

  /** A successful `setResource` leaves the kind, the name and, for a Secret, the
      type where they belong. */
  lemma ResourceKindNameType(n: Node, args: ResourceArgs, loaded: Result<seq<KvPair>>,
                             invalidKey: string -> Option<string>)
    requires ResourceOutcome(n, args, loaded, invalidKey).err.None?
    ensures var root := ResourceOutcome(n, args, loaded, invalidKey).root;
            Get(root, ResourcePath + [KindField]) == Some(Str(args.resourceKind)) &&
            Get(root, MetadataPath + [NameField]) == Some(Str(args.resourceName)) &&
            (args.resourceKind == "Secret" ==>
               Get(root, ResourcePath + [TypeField]) == Some(Str(SecretType(args.secretType))))
  {
    var n2 := WithImmutable(DataOutcome(n, args, loaded, invalidKey).root, args.resourceOptions);
    var n4 := WithKindAndMeta(n2, args);
    WithKindAndMetaGet(n2, args);
    WithNameAndTypeOther(n4, args, ResourcePath + [KindField]);
    WithNameAndTypeGet(n4, args);
  }
}
