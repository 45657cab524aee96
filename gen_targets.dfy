/** Where a ResourceDistribution sends its resource
    (cmd/resourcedistributiongenerator/generator/targets.go): all namespaces, included
    and excluded namespace lists, and a namespace label selector whose expressions are
    checked, sorted and written out. */
module GenTargets {
  import opened Wrappers
  import opened Strings
  import opened Yaml
  import opened GenAlias
  import opened GenUtils

  const EmptyTargetsError := "The targets field of the ResourceDistribution cannot be empty"
  const EmptyKeyError :=
    "the field ResourceDistribution.targets.namespaceLabelSelector.matchExpressions.key cannot be empty"
  const InvalidOperatorError :=
    "the field ResourceDistribution.targets.namespaceLabelSelector.matchExpressions.operator is invalid"
  const NilValuesError :=
    "the field ResourceDistribution.targets.namespaceLabelSelector.matchExpressions.values for In and NotIn cannot be empty"
  const EmptyValueError :=
    "the element of field ResourceDistribution.targets.namespaceLabelSelector.matchExpressions.values is invalid"
  const RepeatedValueError :=
    "the element of field ResourceDistribution.targets.namespaceLabelSelector.matchExpressions.values cannot be repeated"
  const ValuesNotAllowedError :=
    "the field ResourceDistribution.targets.namespaceLabelSelector.matchExpressions.values for Exist and DoesNotExist must be empty"

  /** The operators of a Kubernetes label selector requirement. */
  const OpIn := "In"
  const OpNotIn := "NotIn"
  const OpExists := "Exists"
  const OpDoesNotExist := "DoesNotExist"

  predicate ValidOperator(op: string)
  {
    op == OpIn || op == OpNotIn || op == OpExists || op == OpDoesNotExist
  }

  predicate TakesValues(op: string) { op == OpIn || op == OpNotIn }

  /** One match expression; a nil `Values` slice is `None`. */
  datatype Requirement = Requirement(key: string, operator: string, values: Option<seq<string>>)

  /** The selector: labels as a map (nil is `None`) and the expressions as the caller's
      slice, which is sorted in place (nil is `null`). */
  datatype LabelSelector = LabelSelector(
    matchLabels: Option<map<string, string>>,
    matchExpressions: array?<Requirement>)

  /** `TargetsArgs`; nil slices and a nil selector are `None`. */
  datatype TargetsArgs = TargetsArgs(
    allNamespaces: bool,
    excludedNamespaces: Option<seq<string>>,
    includedNamespaces: Option<seq<string>>,
    namespaceLabelSelector: Option<LabelSelector>)

  // ---------------------------------------------------------------- sorting

  predicate SortedBy<T>(s: seq<T>, key: T -> string)
  {
    forall i, j :: 0 <= i < j < |s| ==> LessEq(key(s[i]), key(s[j]))
  }

  lemma LessEqTrans(a: string, b: string, c: string)
    requires LessEq(a, b) && LessEq(b, c)
    ensures LessEq(a, c)
  {
    if a != b && b != c { LessTrans(a, b, c); }
  }

  /** `[h] + rest` stays sorted when `h` is below everything that went into `rest`. */
  lemma InsertBehindHead<T>(x: T, s: seq<T>, rest: seq<T>, key: T -> string)
    requires s != [] && SortedBy(s, key) && Less(key(s[0]), key(x))
    requires multiset(rest) == multiset(s[1..]) + multiset{x}
    requires SortedBy(rest, key)
    ensures SortedBy([s[0]] + rest, key)
  {
    forall k | 0 <= k < |rest| ensures LessEq(key(s[0]), key(rest[k])) {
      assert rest[k] in multiset(rest);
      if rest[k] != x {
        assert rest[k] in s[1..];
        var j :| 0 <= j < |s[1..]| && s[1..][j] == rest[k];
        assert s[1..][j] == s[j + 1];
      }
    }
    var r := [s[0]] + rest;
    forall i, j | 0 <= i < j < |r| ensures LessEq(key(r[i]), key(r[j])) {
      if i > 0 { assert r[i] == rest[i - 1] && r[j] == rest[j - 1]; }
      else { assert r[j] == rest[j - 1]; }
    }
  }

  /** Inserts `x` into a sorted sequence before the first element not below it. */
  function Insert<T(==)>(x: T, s: seq<T>, key: T -> string): (r: seq<T>)
    requires SortedBy(s, key)
    ensures |r| == |s| + 1
    ensures multiset(r) == multiset(s) + multiset{x}
    ensures SortedBy(r, key)
    decreases |s|
  {
    if s == [] then [x]
    else if LessEq(key(x), key(s[0])) then
      assert SortedBy([x] + s, key) by {
        forall j | 0 <= j < |s| ensures LessEq(key(x), key(s[j])) {
          if j > 0 { LessEqTrans(key(x), key(s[0]), key(s[j])); }
        }
      }
      [x] + s
    else
      LessTotal(key(x), key(s[0]));
      assert s == [s[0]] + s[1..];
      var rest := Insert(x, s[1..], key);
      InsertBehindHead(x, s, rest, key);
      [s[0]] + rest
  }

  /** `sort.Slice` / `sort.Strings`: a permutation of `s` ordered by `key`. Go's
      sort is not stable; this is one of the orders it may leave. */
  function SortBy<T(==)>(s: seq<T>, key: T -> string): (r: seq<T>)
    ensures |r| == |s|
    ensures multiset(r) == multiset(s)
    ensures SortedBy(r, key)
    decreases |s|
  {
    if s == [] then []
    else
      assert s == [s[0]] + s[1..];
      Insert(s[0], SortBy(s[1..], key), key)
  }

  function KeyOf(r: Requirement): string { r.key }

  function Identity(s: string): string { s }

  /** `sort.Strings` on the values of an In/NotIn expression. */
  function SortStrings(vs: seq<string>): (r: seq<string>)
    ensures multiset(r) == multiset(vs)
    ensures Sorted(r)
  {
    var r := SortBy(vs, Identity);
    assert forall i, j :: 0 <= i < j < |r| ==> LessEq(Identity(r[i]), Identity(r[j]));
    r
  }

  /** `sort.Slice(args, ...)` by key, in place in the caller's slice. */
  method SortRequirements(a: array<Requirement>)
    modifies a
    ensures a[..] == SortBy(old(a[..]), KeyOf)
    ensures multiset(a[..]) == multiset(old(a[..]))
    ensures forall i, j :: 0 <= i < j < a.Length ==> LessEq(a[i].key, a[j].key)
  {
    var sorted := SortBy(a[..], KeyOf);
    forall i | 0 <= i < a.Length {
      a[i] := sorted[i];
    }
    assert a[..] == sorted;
    assert forall i, j :: 0 <= i < j < a.Length ==> LessEq(KeyOf(a[i]), KeyOf(a[j]));
  }

  // ---------------------------------------------------------------- values

  /** No value occurs twice. */
  ghost predicate Unique(s: seq<string>)
  {
    forall x :: multiset(s)[x] <= 1
  }

  function Plains(vs: seq<string>): (r: seq<Node>)
  {
    seq(|vs|, i requires 0 <= i < |vs| => Plain(vs[i]))
  }

  /** The loop over the (already sorted) values of an In/NotIn expression: an empty
      value or one seen before stops it with its error; otherwise every value becomes
      a plain scalar. */
  function ValuesResult(vs: seq<string>): Result<seq<Node>>
    decreases |vs|
  {
    if vs == [] then Ok([])
    else
      match ValuesResult(vs[..|vs| - 1])
      case Err(e) => Err(e)
      case Ok(items) =>
        var v := vs[|vs| - 1];
        if v == "" then Err(EmptyValueError)
        else if v in vs[..|vs| - 1] then Err(RepeatedValueError)
        else Ok(items + [Plain(v)])
  }

  /** Once the values loop has failed, the values after it do not matter. */
  lemma {:induction false} ValuesErrPersists(vs: seq<string>, i: int)
    requires 0 <= i < |vs| && ValuesResult(vs[..i + 1]).Err?
    ensures ValuesResult(vs) == ValuesResult(vs[..i + 1])
    decreases |vs|
  {
    if |vs| > i + 1 {
      var init := vs[..|vs| - 1];
      assert init[..i + 1] == vs[..i + 1];
      ValuesErrPersists(init, i);
    } else {
      assert vs[..i + 1] == vs;
    }
  }

  /** A value appended to a list keeps it free of repeats exactly when it is new. */
  lemma UniqueSnoc(init: seq<string>, last: string)
    ensures Unique(init + [last]) <==> Unique(init) && last !in init
  {
    var vs := init + [last];
    assert multiset(vs) == multiset(init) + multiset{last};
    if Unique(vs) {
      forall x ensures multiset(init)[x] <= 1 {
        assert multiset(init)[x] <= multiset(vs)[x];
      }
      assert multiset(vs)[last] <= 1;
    }
    if Unique(init) && last !in init {
      forall x ensures multiset(vs)[x] <= 1 {
        if x == last { assert x !in multiset(init); }
      }
    }
  }

  /** In a sorted list, "" can only be preceded by "". */
  lemma SortedEmptyLast(init: seq<string>, last: string)
    requires Sorted(init + [last]) && last == "" && init != []
    ensures "" in init
  {
    var vs := init + [last];
    assert LessEq(vs[0], vs[|vs| - 1]);
    assert init[0] == vs[0];
  }

  /** What the values loop yields on sorted values. */
  ghost function SortedValuesOutcome(vs: seq<string>): Result<seq<Node>>
  {
    if "" in vs then Err(EmptyValueError)
    else if !Unique(vs) then Err(RepeatedValueError)
    else Ok(Plains(vs))
  }

  lemma ValuesResultErrStep(vs: seq<string>, init: seq<string>)
    requires vs != [] && init == vs[..|vs| - 1] && ValuesResult(init).Err?
    ensures ValuesResult(vs) == ValuesResult(init)
  {
  }

  lemma ValuesResultBadStep(vs: seq<string>, init: seq<string>, last: string)
    requires vs != [] && init == vs[..|vs| - 1] && last == vs[|vs| - 1]
    requires ValuesResult(init).Ok? && (last == "" || last in init)
    ensures ValuesResult(vs) == if last == "" then Err(EmptyValueError) else Err(RepeatedValueError)
  {
  }

  lemma ValuesResultOkStep(vs: seq<string>, init: seq<string>, last: string)
    requires vs != [] && init == vs[..|vs| - 1] && last == vs[|vs| - 1]
    requires ValuesResult(init) == Ok(Plains(init)) && last != "" && last !in init
    ensures ValuesResult(vs) == Ok(Plains(vs))
  {
    assert Plains(vs) == Plains(init) + [Plain(last)];
  }

  /** The sorted outcome of one more value, from the outcome on the values before it. */
  lemma SortedValuesOutcomeSnoc(init: seq<string>, last: string)
    requires last == "" && init != [] ==> "" in init
    ensures var vs := init + [last];
      SortedValuesOutcome(vs) ==
        if "" in init || !Unique(init) then SortedValuesOutcome(init)
        else if last == "" then Err(EmptyValueError)
        else if last in init then Err(RepeatedValueError)
        else Ok(Plains(vs))
  {
    var vs := init + [last];
    UniqueSnoc(init, last);
    assert ("" in vs) <==> ("" in init || last == "");
  }

  /** One more value, given the outcome on the values before it. */
  lemma ValuesResultStep(vs: seq<string>, init: seq<string>, last: string)
    requires vs != [] && init == vs[..|vs| - 1] && last == vs[|vs| - 1]
    requires ValuesResult(init) == SortedValuesOutcome(init)
    requires last == "" && init != [] ==> "" in init
    ensures ValuesResult(vs) == SortedValuesOutcome(vs)
  {
    assert vs == init + [last];
    SortedValuesOutcomeSnoc(init, last);
    if "" in init || !Unique(init) {
      ValuesResultErrStep(vs, init);
    } else if last == "" || last in init {
      ValuesResultBadStep(vs, init, last);
    } else {
      ValuesResultOkStep(vs, init, last);
    }
  }

  /** Because the values are sorted first, an empty value (the least string) is
      reported before any repeat: the error is "invalid" exactly when "" is among the
      values, else "repeated" exactly when some value repeats, and otherwise the
      values come out in order as plain scalars. */
  lemma {:induction false} ValuesResultSorted(vs: seq<string>)
    requires Sorted(vs)
    ensures ValuesResult(vs) ==
      if "" in vs then Err(EmptyValueError)
      else if !Unique(vs) then Err(RepeatedValueError)
      else Ok(Plains(vs))
    decreases |vs|
  {
    if vs != [] {
      var init := vs[..|vs| - 1];
      var last := vs[|vs| - 1];
      assert vs == init + [last];
      assert Sorted(init);
      ValuesResultSorted(init);
      if last == "" && init != [] {
        SortedEmptyLast(init, last);
      }
      ValuesResultStep(vs, init, last);
    } else {
      assert Plains(vs) == [];
      forall x ensures multiset(vs)[x] <= 1 { }
    }
  }

  /** The values loop, with the set of values already seen. */
  method MakeValueList(vs: seq<string>) returns (res: Result<seq<Node>>)
    ensures res == ValuesResult(vs)
  {
    var known: set<string> := {};
    var items: seq<Node> := [];
    for i := 0 to |vs|
      invariant ValuesResult(vs[..i]) == Ok(items)
      invariant forall x :: x in known <==> x in vs[..i]
    {
      assert vs[..i + 1][..i] == vs[..i];
      if vs[i] == "" {
        ValuesErrPersists(vs, i);
        return Err(EmptyValueError);
      }
      if vs[i] in known {
        ValuesErrPersists(vs, i);
        return Err(RepeatedValueError);
      }
      items := items + [Plain(vs[i])];
      known := known + {vs[i]};
      assert vs[..i + 1] == vs[..i] + [vs[i]];
    }
    assert vs[..|vs|] == vs;
    return Ok(items);
  }

  // ---------------------------------------------------------------- one expression

  /** The mapping written for one expression: key, operator and, for In/NotIn, the
      values, all as plain scalars. */
  function ElementNode(key: string, operator: string, values: Option<seq<Node>>): Node
  {
    Mapping([Field(KeyField, Plain(key)), Field(OperatorField, Plain(operator))]
      + (if values.Some? then [Field(ValuesField, Sequence(values.value))] else []))
  }

  /** The checks of one expression in the order the loop body makes them. */
  function RequirementResult(r: Requirement): Result<Node>
  {
    if r.key == "" then Err(EmptyKeyError)
    else if !ValidOperator(r.operator) then Err(InvalidOperatorError)
    else if TakesValues(r.operator) then
      if r.values.None? then Err(NilValuesError)
      else
        match ValuesResult(SortStrings(r.values.value))
        case Err(e) => Err(e)
        case Ok(items) => Ok(ElementNode(r.key, r.operator, Some(items)))
    else if r.values.Some? then Err(ValuesNotAllowedError)
    else Ok(ElementNode(r.key, r.operator, None))
  }

  /** What the loop body leaves in the caller's slice: In/NotIn values that reach the
      sort are sorted in place. */
  function Normalize(r: Requirement): Requirement
  {
    if r.key != "" && TakesValues(r.operator) && r.values.Some?
    then r.(values := Some(SortStrings(r.values.value)))
    else r
  }

  /** The error an expression draws, stated on its values as given (before sorting):
      key, then operator, then missing values, then an empty value, then a repeat,
      then values where none are allowed; a valid expression becomes its element with
      its values in ascending order. */
  lemma RequirementResultSpec(r: Requirement)
    ensures RequirementResult(r) ==
      if r.key == "" then Err(EmptyKeyError)
      else if !ValidOperator(r.operator) then Err(InvalidOperatorError)
      else if TakesValues(r.operator) && r.values.None? then Err(NilValuesError)
      else if TakesValues(r.operator) && "" in r.values.value then Err(EmptyValueError)
      else if TakesValues(r.operator) && !Unique(r.values.value) then Err(RepeatedValueError)
      else if !TakesValues(r.operator) && r.values.Some? then Err(ValuesNotAllowedError)
      else if TakesValues(r.operator) then
        Ok(ElementNode(r.key, r.operator, Some(Plains(SortStrings(r.values.value)))))
      else Ok(ElementNode(r.key, r.operator, None))
  {
    if r.key != "" && ValidOperator(r.operator) && TakesValues(r.operator) && r.values.Some? {
      var vs := r.values.value;
      var sorted := SortStrings(vs);
      ValuesResultSorted(sorted);
      assert ("" in sorted) == ("" in multiset(vs));
      assert Unique(sorted) == Unique(vs);
    }
  }

  /** The checks and the in-place sort of the values of expression `i`. */
  method MakeElement(args: array<Requirement>, i: int) returns (res: Result<Node>)
    requires 0 <= i < args.Length
    modifies args
    ensures res == RequirementResult(old(args[i]))
    ensures args[..] == old(args[..])[i := Normalize(old(args[i]))]
  {
    var r := args[i];
    if r.key == "" {
      return Err(EmptyKeyError);
    }
    if !ValidOperator(r.operator) {
      return Err(InvalidOperatorError);
    }
    if TakesValues(r.operator) {
      if r.values.None? {
        return Err(NilValuesError);
      }
      var sorted := SortStrings(r.values.value);
      args[i] := r.(values := Some(sorted));
      var items := MakeValueList(sorted);
      if items.Err? {
        return Err(items.error);
      }
      return Ok(ElementNode(r.key, r.operator, Some(items.value)));
    }
    if r.values.Some? {
      return Err(ValuesNotAllowedError);
    }
    return Ok(ElementNode(r.key, r.operator, None));
  }

  // ---------------------------------------------------------------- all expressions

  /** The loop over the sorted expressions: the first failing expression stops it
      with its error; otherwise each expression gives its element, in order. */
  function ExpressionsResult(reqs: seq<Requirement>): Result<seq<Node>>
    decreases |reqs|
  {
    if reqs == [] then Ok([])
    else
      match ExpressionsResult(reqs[..|reqs| - 1])
      case Err(e) => Err(e)
      case Ok(items) =>
        match RequirementResult(reqs[|reqs| - 1])
        case Err(e) => Err(e)
        case Ok(element) => Ok(items + [element])
  }

  /** How many expressions the loop reaches: all of them, or up to and including the
      first that fails. */
  function Processed(reqs: seq<Requirement>): (k: nat)
    ensures k <= |reqs|
    decreases |reqs|
  {
    if reqs == [] then 0
    else if ExpressionsResult(reqs[..|reqs| - 1]).Err? then Processed(reqs[..|reqs| - 1])
    else |reqs|
  }

  /** Once an expression has failed, the expressions after it are neither checked
      nor touched. */
  lemma {:induction false} ExpressionsErrPersists(reqs: seq<Requirement>, i: int)
    requires 0 <= i < |reqs|
    requires ExpressionsResult(reqs[..i]).Ok? && ExpressionsResult(reqs[..i + 1]).Err?
    ensures ExpressionsResult(reqs) == ExpressionsResult(reqs[..i + 1])
    ensures Processed(reqs) == i + 1
    decreases |reqs|
  {
    if |reqs| > i + 1 {
      var init := reqs[..|reqs| - 1];
      assert init[..i + 1] == reqs[..i + 1];
      assert init[..i] == reqs[..i];
      ExpressionsErrPersists(init, i);
    } else {
      assert reqs[..i + 1] == reqs;
      assert reqs[..i] == reqs[..|reqs| - 1];
    }
  }

  /** The list succeeds exactly when every expression does. */
  lemma {:induction false} ExpressionsResultOk(reqs: seq<Requirement>)
    ensures ExpressionsResult(reqs).Ok? <==> forall i :: 0 <= i < |reqs| ==> RequirementResult(reqs[i]).Ok?
    decreases |reqs|
  {
    if reqs != [] {
      var init := reqs[..|reqs| - 1];
      ExpressionsResultOk(init);
      assert forall i :: 0 <= i < |init| ==> init[i] == reqs[i];
      if ExpressionsResult(init).Err? {
        var i :| 0 <= i < |init| && RequirementResult(init[i]).Err?;
        assert RequirementResult(reqs[i]).Err?;
      }
    }
  }

  /** A successful list holds one element per expression, in order. */
  lemma {:induction false} ExpressionsResultElements(reqs: seq<Requirement>)
    requires ExpressionsResult(reqs).Ok?
    ensures |ExpressionsResult(reqs).value| == |reqs|
    ensures forall i :: 0 <= i < |reqs| ==> RequirementResult(reqs[i]) == Ok(ExpressionsResult(reqs).value[i])
    decreases |reqs|
  {
    if reqs != [] {
      var init := reqs[..|reqs| - 1];
      ExpressionsResultElements(init);
      assert forall i :: 0 <= i < |init| ==> init[i] == reqs[i];
    }
  }

  /** The caller's slice after the loop: the first `k` expressions normalized. */
  function NormalizedUpTo(reqs: seq<Requirement>, k: int): (r: seq<Requirement>)
  {
    seq(|reqs|, j requires 0 <= j < |reqs| => if j < k then Normalize(reqs[j]) else reqs[j])
  }

  /** The slice after `setMatchExpressions`: sorted by key, then normalized as far as
      the loop got. */
  function ExpressionsAfter(reqs: seq<Requirement>): seq<Requirement>
  {
    var sorted := SortBy(reqs, KeyOf);
    NormalizedUpTo(sorted, Processed(sorted))
  }

  const MatchExpressionsPath := NamespaceLabelSelectorPath + [MatchExpressionsField]

  /** `setMatchExpressions` on the contents of a non-nil slice: the element list is
      attached only if every expression passes, so an error leaves the node alone. */
  function MatchExpressionsOutcome(n: Node, reqs: seq<Requirement>): Outcome
  {
    match ExpressionsResult(SortBy(reqs, KeyOf))
    case Err(e) => Outcome(n, Some(e))
    case Ok(items) => Outcome(SetAt(n, MatchExpressionsPath, Sequence(items)), None)
  }

  /** Writing back expression `i` extends the normalized prefix by one. */
  lemma NormalizedStep(reqs: seq<Requirement>, i: int)
    requires 0 <= i < |reqs|
    ensures NormalizedUpTo(reqs, i)[i := Normalize(reqs[i])] == NormalizedUpTo(reqs, i + 1)
  {
  }

  /** The loop of `setMatchExpressions` over the sorted slice. */
  method MakeElementList(args: array<Requirement>) returns (res: Result<seq<Node>>)
    modifies args
    ensures res == ExpressionsResult(old(args[..]))
    ensures args[..] == NormalizedUpTo(old(args[..]), Processed(old(args[..])))
  {
    ghost var reqs := args[..];
    var list: seq<Node> := [];
    var i := 0;
    while i < args.Length
      invariant 0 <= i <= args.Length
      invariant ExpressionsResult(reqs[..i]) == Ok(list)
      invariant args[..] == NormalizedUpTo(reqs, i)
    {
      var element := MakeElement(args, i);
      NormalizedStep(reqs, i);
      assert reqs[..i + 1][..i] == reqs[..i];
      if element.Err? {
        ExpressionsErrPersists(reqs, i);
        return Err(element.error);
      }
      list := list + [element.value];
      i := i + 1;
    }
    assert reqs[..args.Length] == reqs;
    return Ok(list);
  }

  method SetMatchExpressions(rn: RNode, args: array?<Requirement>) returns (err: Option<string>)
    modifies rn, args
    ensures args == null ==> err.None? && rn.root == old(rn.root)
    ensures args != null ==>
      rn.root == MatchExpressionsOutcome(old(rn.root), old(args[..])).root &&
      err == MatchExpressionsOutcome(old(rn.root), old(args[..])).err &&
      args[..] == ExpressionsAfter(old(args[..]))
  {
    if args == null {
      return None;
    }
    SortRequirements(args);
    var list := MakeElementList(args);
    if list.Err? {
      return Some(list.error);
    }
    rn.SetMapField(Sequence(list.value), MatchExpressionsPath);
    return None;
  }

  /** Sorting first means the order in which the caller lists the expressions, and
      the order of their values, does not decide whether the list is accepted. */
  ghost predicate ValidRequirement(r: Requirement)
  {
    r.key != "" && ValidOperator(r.operator) &&
    (TakesValues(r.operator) ==> r.values.Some? && "" !in r.values.value && Unique(r.values.value)) &&
    (!TakesValues(r.operator) ==> r.values.None?)
  }

  lemma ExpressionsValid(reqs: seq<Requirement>)
    ensures ExpressionsResult(SortBy(reqs, KeyOf)).Ok? <==> forall r :: r in reqs ==> ValidRequirement(r)
  {
    var sorted := SortBy(reqs, KeyOf);
    ExpressionsResultOk(sorted);
    forall r | r in sorted ensures RequirementResult(r).Ok? <==> ValidRequirement(r) {
      RequirementResultSpec(r);
    }
    assert forall r :: r in sorted <==> r in reqs by {
      forall r ensures r in sorted <==> r in reqs {
        assert r in sorted <==> r in multiset(sorted);
        assert r in reqs <==> r in multiset(reqs);
      }
    }
  }

  /** Every error the expressions draw is one of the six expression messages. */
  predicate ExpressionError(e: string)
  {
    e == EmptyKeyError || e == InvalidOperatorError || e == NilValuesError ||
    e == EmptyValueError || e == RepeatedValueError || e == ValuesNotAllowedError
  }

  lemma {:induction false} ValuesErrors(vs: seq<string>)
    ensures ValuesResult(vs).Err? ==> ValuesResult(vs).error == EmptyValueError || ValuesResult(vs).error == RepeatedValueError
    decreases |vs|
  {
    if vs != [] { ValuesErrors(vs[..|vs| - 1]); }
  }

  lemma RequirementErrors(r: Requirement)
    ensures RequirementResult(r).Err? ==> ExpressionError(RequirementResult(r).error)
  {
    if r.values.Some? { ValuesErrors(SortStrings(r.values.value)); }
  }

  lemma {:induction false} ExpressionsErrors(reqs: seq<Requirement>)
    ensures ExpressionsResult(reqs).Err? ==> ExpressionError(ExpressionsResult(reqs).error)
    decreases |reqs|
  {
    if reqs != [] {
      ExpressionsErrors(reqs[..|reqs| - 1]);
      RequirementErrors(reqs[|reqs| - 1]);
    }
  }

  // ---------------------------------------------------------------- namespaces

  /** `newNameListRNode`: a sequence of plain scalars, one per name, in order. */
  function NameList(values: seq<string>): Node
  {
    Sequence(Plains(values))
  }

  /** Reads the names back from a list of scalars. */
  function NamesOf(n: Node): Option<seq<string>>
  {
    if n.Sequence? && forall i :: 0 <= i < |n.items| ==> n.items[i].Scalar? then
      Some(seq(|n.items|, i requires 0 <= i < |n.items| =>
        if n.items[i].Scalar? then n.items[i].value else ""))
    else None
  }

  /** The list holds exactly the given names, in the given order, each an untagged
      scalar (not a `name:` mapping). */
  lemma NameListRoundTrip(values: seq<string>)
    ensures NamesOf(NameList(values)) == Some(values)
    ensures forall i :: 0 <= i < |NameList(values).items| ==> NameList(values).items[i].tag == NoTag
  {
    var n := NameList(values);
    assert forall i :: 0 <= i < |n.items| ==> n.items[i] == Plain(values[i]);
    assert NamesOf(n).Some?;
    assert NamesOf(n).value == values;
  }

  method NewNameList(values: seq<string>) returns (n: Node)
    ensures n == NameList(values)
  {
    var items: seq<Node> := [];
    for i := 0 to |values|
      invariant items == Plains(values[..i])
    {
      items := items + [Plain(values[i])];
      assert items == Plains(values[..i + 1]);
    }
    assert values[..|values|] == values;
    return Sequence(items);
  }

  /** `setIncludedExcludedNs`: nothing for a nil list, else `<path>.list`. */
  function WithNames(n: Node, v: Option<seq<string>>, path: seq<string>): Node
  {
    if v.None? then n else SetAt(n, path + [ListField], NameList(v.value))
  }

  method SetIncludedExcludedNs(rn: RNode, v: Option<seq<string>>, path: seq<string>)
    modifies rn
    ensures rn.root == WithNames(old(rn.root), v, path)
  {
    if v.None? {
      return;
    }
    var list := NewNameList(v.value);
    rn.SetMapField(list, path + [ListField]);
  }

  /** `setAllNs`: `allNamespaces: true` when asked for; false is not written. */
  function WithAllNamespaces(n: Node, all: bool): Node
  {
    if all then SetAt(n, TargetsPath + [AllNamespacesField], TrueNode) else n
  }

  method SetAllNs(rn: RNode, all: bool)
    modifies rn
    ensures rn.root == WithAllNamespaces(old(rn.root), all)
  {
    if !all {
      return;
    }
    rn.SetMapField(TrueNode, TargetsPath + [AllNamespacesField]);
  }

  // ---------------------------------------------------------------- selector

  /** `setMatchLabels`: the same sorted-key loop as labels and annotations. */
  method SetMatchLabels(rn: RNode, labels: Option<map<string, string>>)
    modifies rn
    ensures rn.root == WithLabels(old(rn.root), labels, MatchLabelsPath)
  {
    SetLabelsOrAnnotations(rn, labels, MatchLabelsPath);
  }

  /** The expressions slice of an optional selector. */
  function ExprArray(sel: Option<LabelSelector>): array?<Requirement>
  {
    if sel.Some? then sel.value.matchExpressions else null
  }

  /** The contents of a possibly nil slice. */
  function Exprs(a: array?<Requirement>): seq<Requirement>
    reads a
  {
    if a == null then [] else a[..]
  }

  /** `setNsLabelSelector`: expressions, then labels; an expression error stops it. */
  function SelectorOutcome(n: Node, sel: Option<LabelSelector>, exprs: seq<Requirement>): Outcome
  {
    if sel.None? then Outcome(n, None)
    else
      var e := if sel.value.matchExpressions == null then Outcome(n, None) else MatchExpressionsOutcome(n, exprs);
      if e.err.Some? then e
      else Outcome(WithLabels(e.root, sel.value.matchLabels, MatchLabelsPath), None)
  }

  method SetNsLabelSelector(rn: RNode, sel: Option<LabelSelector>) returns (err: Option<string>)
    modifies rn, ExprArray(sel)
    ensures rn.root == SelectorOutcome(old(rn.root), sel, old(Exprs(ExprArray(sel)))).root
    ensures err == SelectorOutcome(old(rn.root), sel, old(Exprs(ExprArray(sel)))).err
    ensures Exprs(ExprArray(sel)) == ExpressionsAfter(old(Exprs(ExprArray(sel))))
  {
    if sel.None? {
      return None;
    }
    err := SetMatchExpressions(rn, sel.value.matchExpressions);
    if err.Some? {
      return;
    }
    SetMatchLabels(rn, sel.value.matchLabels);
  }

  // ---------------------------------------------------------------- targets

  /** Nothing to distribute to: the condition `setTargets` rejects first. */
  predicate NoTargets(args: TargetsArgs)
  {
    !args.allNamespaces && args.includedNamespaces.None? && args.excludedNamespaces.None? &&
    (args.namespaceLabelSelector.None? ||
      (args.namespaceLabelSelector.value.matchLabels.None? &&
       args.namespaceLabelSelector.value.matchExpressions == null))
  }

  /** All namespaces, then the excluded list, then the included list. */
  function WithNamespaces(n: Node, args: TargetsArgs): Node
  {
    WithNames(WithNames(WithAllNamespaces(n, args.allNamespaces),
      args.excludedNamespaces, ExcludedNamespacesPath),
      args.includedNamespaces, IncludedNamespacesPath)
  }

  /** `setTargets` on the node, given the contents of the expressions slice. */
  function TargetsOutcome(n: Node, args: TargetsArgs, exprs: seq<Requirement>): Outcome
  {
    if NoTargets(args) then Outcome(n, Some(EmptyTargetsError))
    else SelectorOutcome(WithNamespaces(n, args), args.namespaceLabelSelector, exprs)
  }

  method SetTargets(rn: RNode, args: TargetsArgs) returns (err: Option<string>)
    modifies rn, ExprArray(args.namespaceLabelSelector)
    ensures rn.root == TargetsOutcome(old(rn.root), args, old(Exprs(ExprArray(args.namespaceLabelSelector)))).root
    ensures err == TargetsOutcome(old(rn.root), args, old(Exprs(ExprArray(args.namespaceLabelSelector)))).err
    ensures Exprs(ExprArray(args.namespaceLabelSelector))
      == ExpressionsAfter(old(Exprs(ExprArray(args.namespaceLabelSelector))))
  {
    if NoTargets(args) {
      return Some(EmptyTargetsError);
    }
    SetAllNs(rn, args.allNamespaces);
    SetIncludedExcludedNs(rn, args.excludedNamespaces, ExcludedNamespacesPath);
    SetIncludedExcludedNs(rn, args.includedNamespaces, IncludedNamespacesPath);
    err := SetNsLabelSelector(rn, args.namespaceLabelSelector);
  }

  /** The emptiness error is reported exactly when there is nothing to distribute
      to, and then the node is left as it was. */
  lemma TargetsEmpty(n: Node, args: TargetsArgs, exprs: seq<Requirement>)
    ensures TargetsOutcome(n, args, exprs).err == Some(EmptyTargetsError) <==> NoTargets(args)
    ensures NoTargets(args) ==> TargetsOutcome(n, args, exprs).root == n
  {
    if !NoTargets(args) {
      var sel := args.namespaceLabelSelector;
      if sel.Some? && sel.value.matchExpressions != null {
        ExpressionsErrors(SortBy(exprs, KeyOf));
      }
    }
  }

  /** `setTargets` succeeds exactly when there is something to distribute to and
      every match expression is valid; which of the requirements are valid does not
      depend on the order they are given in. */
  lemma TargetsSucceed(n: Node, args: TargetsArgs, exprs: seq<Requirement>)
    ensures TargetsOutcome(n, args, exprs).err.None? <==>
      !NoTargets(args) &&
      (ExprArray(args.namespaceLabelSelector) == null || forall r :: r in exprs ==> ValidRequirement(r))
  {
    ExpressionsValid(exprs);
  }

  /** Setting a name list touches nothing off its path. */
  lemma NamesOther(n: Node, v: Option<seq<string>>, path: seq<string>, q: seq<string>)
    requires Diverge(path, q)
    ensures Get(WithNames(n, v, path), q) == Get(n, q)
  {
    if v.Some? {
      DivergeExtend(path, [ListField], q);
      SetAtOther(n, path + [ListField], q, NameList(v.value));
    }
  }

  /** The selector touches nothing outside `namespaceLabelSelector`. */
  lemma SelectorOther(n: Node, sel: Option<LabelSelector>, exprs: seq<Requirement>, q: seq<string>)
    requires Diverge(NamespaceLabelSelectorPath, q)
    ensures Get(SelectorOutcome(n, sel, exprs).root, q) == Get(n, q)
  {
    if sel.Some? {
      DivergeExtend(NamespaceLabelSelectorPath, [MatchExpressionsField], q);
      var e := if sel.value.matchExpressions == null then Outcome(n, None) else MatchExpressionsOutcome(n, exprs);
      if sel.value.matchExpressions != null {
        match ExpressionsResult(SortBy(exprs, KeyOf))
        case Err(_) =>
        case Ok(items) => SetAtOther(n, MatchExpressionsPath, q, Sequence(items));
      }
      assert Get(e.root, q) == Get(n, q);
      assert MatchLabelsPath == NamespaceLabelSelectorPath + ["matchLabels"];
      DivergeExtend(NamespaceLabelSelectorPath, ["matchLabels"], q);
      WithLabelsOther(e.root, sel.value.matchLabels, MatchLabelsPath, q);
    }
  }

  /** `allNamespaces: true` is in place whenever it was asked for. */
  lemma TargetsAllNamespaces(n: Node, args: TargetsArgs, exprs: seq<Requirement>)
    requires args.allNamespaces
    ensures Get(TargetsOutcome(n, args, exprs).root, TargetsPath + [AllNamespacesField]) == Some(TrueNode)
  {
    var q := TargetsPath + [AllNamespacesField];
    var n1 := WithAllNamespaces(n, true);
    SetAtGet(n, q, TrueNode);
    assert ExcludedNamespacesPath[2] != q[2] && IncludedNamespacesPath[2] != q[2];
    NamesOther(n1, args.excludedNamespaces, ExcludedNamespacesPath, q);
    NamesOther(WithNames(n1, args.excludedNamespaces, ExcludedNamespacesPath),
      args.includedNamespaces, IncludedNamespacesPath, q);
    assert NamespaceLabelSelectorPath[2] != q[2];
    SelectorOther(WithNamespaces(n, args), args.namespaceLabelSelector, exprs, q);
  }

  /** A given excluded list is in place, whatever else happens. */
  lemma TargetsExcluded(n: Node, args: TargetsArgs, exprs: seq<Requirement>)
    requires args.excludedNamespaces.Some?
    ensures Get(TargetsOutcome(n, args, exprs).root, ExcludedNamespacesPath + [ListField])
      == Some(NameList(args.excludedNamespaces.value))
  {
    var q := ExcludedNamespacesPath + [ListField];
    var n1 := WithAllNamespaces(n, args.allNamespaces);
    SetAtGet(n1, q, NameList(args.excludedNamespaces.value));
    assert IncludedNamespacesPath[2] != q[2];
    NamesOther(WithNames(n1, args.excludedNamespaces, ExcludedNamespacesPath),
      args.includedNamespaces, IncludedNamespacesPath, q);
    assert NamespaceLabelSelectorPath[2] != q[2];
    SelectorOther(WithNamespaces(n, args), args.namespaceLabelSelector, exprs, q);
  }

  /** A given included list is in place, whatever else happens. */
  lemma TargetsIncluded(n: Node, args: TargetsArgs, exprs: seq<Requirement>)
    requires args.includedNamespaces.Some?
    ensures Get(TargetsOutcome(n, args, exprs).root, IncludedNamespacesPath + [ListField])
      == Some(NameList(args.includedNamespaces.value))
  {
    var q := IncludedNamespacesPath + [ListField];
    var n2 := WithNames(WithAllNamespaces(n, args.allNamespaces), args.excludedNamespaces, ExcludedNamespacesPath);
    SetAtGet(n2, q, NameList(args.includedNamespaces.value));
    assert NamespaceLabelSelectorPath[2] != q[2];
    SelectorOther(WithNamespaces(n, args), args.namespaceLabelSelector, exprs, q);
  }

  /** On success, the expressions are in place as one element per requirement in
      key order. */
  lemma TargetsExpressions(n: Node, args: TargetsArgs, exprs: seq<Requirement>)
    requires !NoTargets(args) && ExprArray(args.namespaceLabelSelector) != null
    requires TargetsOutcome(n, args, exprs).err.None?
    ensures ExpressionsResult(SortBy(exprs, KeyOf)).Ok?
    ensures Get(TargetsOutcome(n, args, exprs).root, MatchExpressionsPath)
      == Some(Sequence(ExpressionsResult(SortBy(exprs, KeyOf)).value))
  {
    var n3 := WithNamespaces(n, args);
    var items := ExpressionsResult(SortBy(exprs, KeyOf)).value;
    SetAtGet(n3, MatchExpressionsPath, Sequence(items));
    assert MatchLabelsPath[3] != MatchExpressionsPath[3];
    WithLabelsOther(SetAt(n3, MatchExpressionsPath, Sequence(items)),
      args.namespaceLabelSelector.value.matchLabels, MatchLabelsPath, MatchExpressionsPath);
  }

  /** On success, every match label is in place under `matchLabels`. */
  lemma TargetsMatchLabels(n: Node, args: TargetsArgs, exprs: seq<Requirement>, k: string)
    requires !NoTargets(args) && args.namespaceLabelSelector.Some?
    requires args.namespaceLabelSelector.value.matchLabels.Some?
    requires k in args.namespaceLabelSelector.value.matchLabels.value
    requires TargetsOutcome(n, args, exprs).err.None?
    ensures Get(TargetsOutcome(n, args, exprs).root, MatchLabelsPath + [k])
      == Some(Str(args.namespaceLabelSelector.value.matchLabels.value[k]))
  {
    var sel := args.namespaceLabelSelector.value;
    var n3 := WithNamespaces(n, args);
    var e := if sel.matchExpressions == null then Outcome(n3, None) else MatchExpressionsOutcome(n3, exprs);
    WithLabelsGet(e.root, sel.matchLabels.value, MatchLabelsPath, k);
  }

  /** A step that writes below `spec.targets.<field>` only. */
  lemma NamesOutside(n: Node, v: Option<seq<string>>, path: seq<string>, field: string, q: seq<string>)
    requires Diverge(TargetsPath, q) && path == TargetsPath + [field]
    ensures Get(WithNames(n, v, path), q) == Get(n, q)
  {
    DivergeExtend(TargetsPath, [field], q);
    NamesOther(n, v, path, q);
  }

  lemma NamespacesOutside(n: Node, args: TargetsArgs, q: seq<string>)
    requires Diverge(TargetsPath, q)
    ensures Get(WithNamespaces(n, args), q) == Get(n, q)
  {
    DivergeExtend(TargetsPath, [AllNamespacesField], q);
    SetAtOther(n, TargetsPath + [AllNamespacesField], q, TrueNode);
    var n1 := WithAllNamespaces(n, args.allNamespaces);
    NamesOutside(n1, args.excludedNamespaces, ExcludedNamespacesPath, "excludedNamespaces", q);
    var n2 := WithNames(n1, args.excludedNamespaces, ExcludedNamespacesPath);
    NamesOutside(n2, args.includedNamespaces, IncludedNamespacesPath, "includedNamespaces", q);
  }

  /** `setTargets`, failing or not, writes nothing outside `spec.targets`. */
  lemma TargetsOutside(n: Node, args: TargetsArgs, exprs: seq<Requirement>, q: seq<string>)
    requires Diverge(TargetsPath, q)
    ensures Get(TargetsOutcome(n, args, exprs).root, q) == Get(n, q)
  {
    if !NoTargets(args) {
      NamespacesOutside(n, args, q);
      assert NamespaceLabelSelectorPath == TargetsPath + ["namespaceLabelSelector"];
      DivergeExtend(TargetsPath, ["namespaceLabelSelector"], q);
      SelectorOther(WithNamespaces(n, args), args.namespaceLabelSelector, exprs, q);
    }
  }
}
