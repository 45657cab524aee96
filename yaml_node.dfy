/** The slice of a kyaml document tree that the ResourceDistribution generator
    builds (cmd/resourcedistributiongenerator/generator): scalars, sequences and
    mappings whose fields keep their insertion order, the "set at path" edit behind
    `RNode.SetMapField`/`LookupCreate`+`SetField`, and lookup by path. */
module Yaml {
  import opened Wrappers

  /** The tags the generator sets: none, `!!str` or `!!bool`. */
  datatype Tag = NoTag | StrTag | BoolTag
  datatype Style = PlainStyle | LiteralStyle

  datatype Node =
    | Scalar(value: string, tag: Tag, style: Style)
    | Sequence(items: seq<Node>)
    | Mapping(fields: seq<Field>)

  datatype Field = Field(name: string, value: Node)

  /** `yaml.NewStringRNode`: a `!!str` scalar. */
  function Str(v: string): Node { Scalar(v, StrTag, PlainStyle) }

  /** An untagged plain scalar, as `newNode`/`NewScalarRNode` make. */
  function Plain(v: string): Node { Scalar(v, NoTag, PlainStyle) }

  const EmptyMapping := Mapping([])

  // ---------------------------------------------------------------- fields

  /** The value of the first field with this name. */
  function FindField(fields: seq<Field>, name: string): Option<Node>
  {
    if fields == [] then None
    else if fields[0].name == name then Some(fields[0].value)
    else FindField(fields[1..], name)
  }

  /** A lookup finds nothing exactly when no field has the name, and otherwise the
      value of a field with that name. */
  lemma {:induction false} FindFieldSpec(fields: seq<Field>, name: string)
    ensures FindField(fields, name).None? <==> forall i :: 0 <= i < |fields| ==> fields[i].name != name
    ensures FindField(fields, name).Some? ==>
              exists i :: 0 <= i < |fields| && fields[i] == Field(name, FindField(fields, name).value)
  {
    if fields != [] && fields[0].name != name {
      FindFieldSpec(fields[1..], name);
      var r := FindField(fields[1..], name);
      if r.Some? {
        var i :| 0 <= i < |fields[1..]| && fields[1..][i] == Field(name, r.value);
        assert fields[i + 1] == Field(name, r.value);
      }
      if r.None? {
        forall i | 0 <= i < |fields| ensures fields[i].name != name {
          if i > 0 { assert fields[i] == fields[1..][i - 1]; }
        }
      }
    }
  }

  /** The field list with the first field of this name given a new value, or the
      field appended when there is none (kyaml's `SetField`). */
  function PutField(fields: seq<Field>, name: string, value: Node): seq<Field>
  {
    if fields == [] then [Field(name, value)]
    else if fields[0].name == name then [Field(name, value)] + fields[1..]
    else [fields[0]] + PutField(fields[1..], name, value)
  }

  /** Afterwards `name` holds the value and every other name what it held; a new name
      is appended at the end, an existing one replaced where it stands. */
  lemma {:induction false} PutFieldSpec(fields: seq<Field>, name: string, value: Node)
    ensures var r := PutField(fields, name, value);
            && FindField(r, name) == Some(value)
            && (forall other :: other != name ==> FindField(r, other) == FindField(fields, other))
            && (FindField(fields, name).None? ==> r == fields + [Field(name, value)])
            && (FindField(fields, name).Some? ==> |r| == |fields|)
    decreases |fields|
  {
    var r := PutField(fields, name, value);
    if fields == [] {
    } else if fields[0].name == name {
      assert r[1..] == fields[1..];
    } else {
      var rest := PutField(fields[1..], name, value);
      PutFieldSpec(fields[1..], name, value);
      assert r[1..] == rest;
      assert FindField(fields, name).None? ==> r == fields + [Field(name, value)] by {
        assert fields == [fields[0]] + fields[1..];
      }
    }
  }

  // ---------------------------------------------------------------- paths

  /** The node reached by following mapping fields along `path`, if any. */
  function Get(n: Node, path: seq<string>): Option<Node>
    decreases |path|
  {
    if path == [] then Some(n)
    else if !n.Mapping? then None
    else match FindField(n.fields, path[0])
      case None => None
      case Some(child) => Get(child, path[1..])
  }

  /** `rn.SetMapField(v, path...)`: mappings are created along the path where missing
      and the last field is set to `v`, everything else left as it was. A scalar or
      sequence met on the way is replaced by a mapping (the generator's paths never
      meet one). */
  function SetAt(n: Node, path: seq<string>, v: Node): Node
    decreases |path|
  {
    if path == [] then v
    else
      var fields := if n.Mapping? then n.fields else [];
      var child := FindField(fields, path[0]).GetOr(EmptyMapping);
      Mapping(PutField(fields, path[0], SetAt(child, path[1..], v)))
  }

  /** `LookupCreate(MappingNode, path...)`: the mappings along the path exist
      afterwards; an existing node at the end is kept. */
  function LookupCreate(n: Node, path: seq<string>): Node
    decreases |path|
  {
    if path == [] then (if n.Mapping? then n else EmptyMapping)
    else
      var fields := if n.Mapping? then n.fields else [];
      var child := FindField(fields, path[0]).GetOr(EmptyMapping);
      Mapping(PutField(fields, path[0], LookupCreate(child, path[1..])))
  }

  /** After setting a path, the path holds the new node. */
  lemma {:induction false} SetAtGet(n: Node, path: seq<string>, v: Node)
    ensures Get(SetAt(n, path, v), path) == Some(v)
    decreases |path|
  {
    if path != [] {
      var fields := if n.Mapping? then n.fields else [];
      var child := FindField(fields, path[0]).GetOr(EmptyMapping);
      SetAtGet(child, path[1..], v);
      PutFieldSpec(fields, path[0], SetAt(child, path[1..], v));
    }
  }

  /** Two paths that part ways at some step. */
  predicate Diverge(p: seq<string>, q: seq<string>)
  {
    exists i :: 0 <= i < |p| && i < |q| && p[i] != q[i]
  }

  /** Setting one path leaves every path that parts ways with it as it was. */
  lemma {:induction false} SetAtOther(n: Node, p: seq<string>, q: seq<string>, v: Node)
    requires Diverge(p, q)
    ensures Get(SetAt(n, p, v), q) == Get(n, q)
    decreases |p|
  {
    var fields := if n.Mapping? then n.fields else [];
    var child := FindField(fields, p[0]).GetOr(EmptyMapping);
    var newFields := PutField(fields, p[0], SetAt(child, p[1..], v));
    PutFieldSpec(fields, p[0], SetAt(child, p[1..], v));
    if p[0] == q[0] {
      var i :| 0 <= i < |p| && i < |q| && p[i] != q[i];
      assert p[1..][i - 1] != q[1..][i - 1];
      SetAtOther(child, p[1..], q[1..], v);
      if !n.Mapping? || FindField(fields, p[0]).None? {
        GetEmptyMapping(q[1..]);
        assert Get(EmptyMapping, q[1..]) == Get(SetAt(child, p[1..], v), q[1..]);
      }
    }
  }

  /** Nothing but the empty path reaches anything in an empty mapping. */
  lemma GetEmptyMapping(q: seq<string>)
    ensures q != [] ==> Get(EmptyMapping, q) == None
  {
  }

  /** The fields of the mapping at `path`; none when there is no mapping there. */
  function FieldsAt(n: Node, path: seq<string>): seq<Field>
  {
    match Get(n, path)
    case Some(Mapping(fields)) => fields
    case _ => []
  }

  /** Setting a name that the mapping at `path` does not have yet appends it there;
      a mapping is made at `path` if there was none. */
  lemma {:induction false} SetAtAppends(n: Node, path: seq<string>, name: string, v: Node)
    requires FindField(FieldsAt(n, path), name).None?
    ensures FieldsAt(SetAt(n, path + [name], v), path) == FieldsAt(n, path) + [Field(name, v)]
    decreases |path|
  {
    if path == [] {
      assert path + [name] == [name];
      var fields := if n.Mapping? then n.fields else [];
      PutFieldSpec(fields, name, SetAt(FindField(fields, name).GetOr(EmptyMapping), [], v));
    } else {
      var fields := if n.Mapping? then n.fields else [];
      var child := FindField(fields, path[0]).GetOr(EmptyMapping);
      var rest := path[1..];
      assert (path + [name])[0] == path[0] && (path + [name])[1..] == rest + [name];
      var sub := SetAt(child, rest + [name], v);
      assert SetAt(n, path + [name], v) == Mapping(PutField(fields, path[0], sub));
      PutFieldSpec(fields, path[0], sub);
      assert Get(SetAt(n, path + [name], v), path) == Get(sub, rest);
      if !n.Mapping? || FindField(fields, path[0]).None? {
        GetEmptyMapping(rest);
      }
      assert FieldsAt(n, path) == FieldsAt(child, rest);
      SetAtAppends(child, rest, name, v);
    }
  }

  /** One edit: the node to put at a path. */
  datatype Edit = Edit(path: seq<string>, node: Node)

  /** The edits applied one after the other, as a loop of `SetMapField` calls does. */
  function SetAll(n: Node, edits: seq<Edit>): Node
  {
    if edits == [] then n
    else SetAt(SetAll(n, edits[..|edits| - 1]), edits[|edits| - 1].path, edits[|edits| - 1].node)
  }

  /** Edits to pairwise diverging paths: each path ends up holding its own node. */
  lemma {:induction false} SetAllGet(n: Node, edits: seq<Edit>)
    requires forall i, j :: 0 <= i < j < |edits| ==> Diverge(edits[i].path, edits[j].path)
    ensures forall i :: 0 <= i < |edits| ==> Get(SetAll(n, edits), edits[i].path) == Some(edits[i].node)
    decreases |edits|
  {
    if edits != [] {
      var init, last := edits[..|edits| - 1], edits[|edits| - 1];
      var before := SetAll(n, init);
      assert SetAll(n, edits) == SetAt(before, last.path, last.node);
      SetAllGet(n, init);
      SetAtGet(before, last.path, last.node);
      forall i | 0 <= i < |init|
        ensures Get(SetAll(n, edits), edits[i].path) == Some(edits[i].node)
      {
        assert init[i] == edits[i];
        var k :| 0 <= k < |edits[i].path| && k < |last.path| && edits[i].path[k] != last.path[k];
        assert Diverge(last.path, edits[i].path);
        SetAtOther(before, last.path, edits[i].path, last.node);
      }
    }
  }

  /** The edits that give each of `names` its node below one parent path. */
  function FieldEdits(parent: seq<string>, fields: seq<Field>): (r: seq<Edit>)
    ensures |r| == |fields|
    ensures forall i :: 0 <= i < |fields| ==> r[i] == Edit(parent + [fields[i].name], fields[i].value)
  {
    seq(|fields|, i requires 0 <= i < |fields| => Edit(parent + [fields[i].name], fields[i].value))
  }

  predicate DistinctNames(fields: seq<Field>)
  {
    forall i, j :: 0 <= i < j < |fields| ==> fields[i].name != fields[j].name
  }

  lemma SplitLast<T>(a: seq<T>, s: seq<T>)
    requires s != []
    ensures a + s[..|s| - 1] + [s[|s| - 1]] == a + s
  {
    assert s == s[..|s| - 1] + [s[|s| - 1]];
  }

  /** A name missing from two field lists is missing from their concatenation. */
  lemma FindFieldAppend(a: seq<Field>, b: seq<Field>, name: string)
    requires FindField(a, name).None? && FindField(b, name).None?
    ensures FindField(a + b, name).None?
  {
    var ab := a + b;
    FindFieldSpec(a, name);
    FindFieldSpec(b, name);
    FindFieldSpec(ab, name);
    forall i | 0 <= i < |ab| ensures ab[i].name != name {
      if i < |a| { assert ab[i] == a[i]; } else { assert ab[i] == b[i - |a|]; }
    }
  }

  /** Fields with new, distinct names set below one parent end up after the parent's
      existing fields, in the order they were set. */
  lemma {:induction false} FieldEditsAppend(n: Node, parent: seq<string>, fields: seq<Field>)
    requires DistinctNames(fields)
    requires forall i :: 0 <= i < |fields| ==> FindField(FieldsAt(n, parent), fields[i].name).None?
    ensures FieldsAt(SetAll(n, FieldEdits(parent, fields)), parent) == FieldsAt(n, parent) + fields
    decreases |fields|
  {
    if fields != [] {
      var init, last := fields[..|fields| - 1], fields[|fields| - 1];
      FieldEditsAppend(n, parent, init);
      assert FindField(init, last.name).None? by {
        FindFieldSpec(init, last.name);
        assert forall i :: 0 <= i < |init| ==> init[i] == fields[i];
      }
      FindFieldAppend(FieldsAt(n, parent), init, last.name);
      FieldEditsAppendStep(n, parent, fields);
    }
  }

  /** Setting a list of fields is setting all but the last, then the last. */
  lemma SetAllFieldEditsLast(n: Node, parent: seq<string>, fields: seq<Field>)
    requires fields != []
    ensures SetAll(n, FieldEdits(parent, fields))
      == SetAt(SetAll(n, FieldEdits(parent, fields[..|fields| - 1])),
               parent + [fields[|fields| - 1].name], fields[|fields| - 1].value)
  {
    var edits := FieldEdits(parent, fields);
    assert edits[..|edits| - 1] == FieldEdits(parent, fields[..|fields| - 1]);
  }

  /** The inductive step of `FieldEditsAppend`: the last field has a new name. */
  lemma FieldEditsAppendStep(n: Node, parent: seq<string>, fields: seq<Field>)
    requires fields != []
    requires FieldsAt(SetAll(n, FieldEdits(parent, fields[..|fields| - 1])), parent)
      == FieldsAt(n, parent) + fields[..|fields| - 1]
    requires FindField(FieldsAt(n, parent) + fields[..|fields| - 1], fields[|fields| - 1].name).None?
    ensures FieldsAt(SetAll(n, FieldEdits(parent, fields)), parent) == FieldsAt(n, parent) + fields
  {
    var init, last := fields[..|fields| - 1], fields[|fields| - 1];
    SetAllFieldEditsLast(n, parent, fields);
    AppendField(SetAll(n, FieldEdits(parent, init)), FieldsAt(n, parent) + init, parent, last);
    SplitLast(FieldsAt(n, parent), fields);
  }

  /** Setting one field with a new name below `parent` appends it to the fields there. */
  lemma AppendField(before: Node, fields: seq<Field>, parent: seq<string>, f: Field)
    requires FieldsAt(before, parent) == fields
    requires FindField(fields, f.name).None?
    ensures FieldsAt(SetAt(before, parent + [f.name], f.value), parent) == fields + [f]
  {
    SetAtAppends(before, parent, f.name, f.value);
    assert Field(f.name, f.value) == f;
  }

  /** Edits below one parent with distinct names go to diverging paths. */
  lemma FieldEditsDiverge(parent: seq<string>, fields: seq<Field>)
    requires DistinctNames(fields)
    ensures forall i, j :: 0 <= i < j < |fields| ==>
              Diverge(FieldEdits(parent, fields)[i].path, FieldEdits(parent, fields)[j].path)
  {
    forall i, j | 0 <= i < j < |fields|
      ensures Diverge(FieldEdits(parent, fields)[i].path, FieldEdits(parent, fields)[j].path)
    {
      var p, q := FieldEdits(parent, fields)[i].path, FieldEdits(parent, fields)[j].path;
      assert p[|parent|] == fields[i].name && q[|parent|] == fields[j].name;
    }
  }

  /** One more edit of a list is one more `SetAt`: the step of every setter loop. */
  lemma SetAllStep(n: Node, edits: seq<Edit>, i: int)
    requires 0 <= i < |edits|
    ensures SetAll(n, edits[..i + 1]) == SetAt(SetAll(n, edits[..i]), edits[i].path, edits[i].node)
  {
    assert edits[..i + 1][..i] == edits[..i];
  }

  /** Edits to paths that all part ways with `q` leave `q` as it was. */
  lemma {:induction false} SetAllOther(n: Node, edits: seq<Edit>, q: seq<string>)
    requires forall i :: 0 <= i < |edits| ==> Diverge(edits[i].path, q)
    ensures Get(SetAll(n, edits), q) == Get(n, q)
    decreases |edits|
  {
    if edits != [] {
      var init, last := edits[..|edits| - 1], edits[|edits| - 1];
      assert forall i :: 0 <= i < |init| ==> init[i] == edits[i];
      SetAllOther(n, init, q);
      SetAtOther(SetAll(n, init), last.path, q, last.node);
    }
  }

  /** A path that parts ways with `q` still does so when extended. */
  lemma DivergeExtend(p: seq<string>, x: seq<string>, q: seq<string>)
    requires Diverge(p, q)
    ensures Diverge(p + x, q)
  {
    var i :| 0 <= i < |p| && i < |q| && p[i] != q[i];
    assert (p + x)[i] == p[i];
  }

  /** After `LookupCreate`, a mapping sits at the path, holding the fields that were
      there before (none if there was no mapping). */
  lemma {:induction false} LookupCreateKeeps(n: Node, path: seq<string>)
    ensures Get(LookupCreate(n, path), path) == Some(Mapping(FieldsAt(n, path)))
    decreases |path|
  {
    if path != [] {
      var fields := if n.Mapping? then n.fields else [];
      var child := FindField(fields, path[0]).GetOr(EmptyMapping);
      LookupCreateKeeps(child, path[1..]);
      PutFieldSpec(fields, path[0], LookupCreate(child, path[1..]));
      if !n.Mapping? || FindField(fields, path[0]).None? {
        GetEmptyMapping(path[1..]);
      }
    }
  }

  /** `LookupCreate` leaves every path that parts ways with its own as it was. */
  lemma {:induction false} LookupCreateOther(n: Node, p: seq<string>, q: seq<string>)
    requires Diverge(p, q)
    ensures Get(LookupCreate(n, p), q) == Get(n, q)
    decreases |p|
  {
    var fields := if n.Mapping? then n.fields else [];
    var child := FindField(fields, p[0]).GetOr(EmptyMapping);
    PutFieldSpec(fields, p[0], LookupCreate(child, p[1..]));
    if p[0] == q[0] {
      var i :| 0 <= i < |p| && i < |q| && p[i] != q[i];
      assert p[1..][i - 1] != q[1..][i - 1];
      LookupCreateOther(child, p[1..], q[1..]);
      if !n.Mapping? || FindField(fields, p[0]).None? {
        GetEmptyMapping(q[1..]);
        assert Get(EmptyMapping, q[1..]) == Get(LookupCreate(child, p[1..]), q[1..]);
      }
    }
  }

  // ---------------------------------------------------------------- the edited document

  /** The `*yaml.RNode` the generator edits in place. */
  class RNode {
    var root: Node

    constructor(root: Node)
      ensures this.root == root
    {
      this.root := root;
    }

    /** `SetMapField`: the path holds `v` afterwards. */
    method SetMapField(v: Node, path: seq<string>)
      modifies this
      ensures root == SetAt(old(root), path, v)
    {
      root := SetAt(root, path, v);
    }

    /** `Pipe(LookupCreate(MappingNode, path...))`. */
    method LookupCreateMapping(path: seq<string>)
      modifies this
      ensures root == LookupCreate(old(root), path)
    {
      root := LookupCreate(root, path);
    }
  }
}
