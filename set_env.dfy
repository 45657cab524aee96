/** `kubectl-kruise set env` (pkg/cmd/set/set_env.go): the option checks of `Complete`
    and `Validate`, the helpers that turn data keys into variable names and guard
    against overwrites, and the in-place prefix rewrite of the collected variables. */
module SetEnv {
  import opened Wrappers
  import opened Strings
  import opened CmdUtil

  /** A container environment variable; only the literal value takes part in the
      overwrite check. */
  datatype EnvVar = EnvVar(name: string, value: string)

  // ---------------------------------------------------------------- keyToEnvName

  /** The characters the pattern `[^a-zA-Z0-9_]` leaves alone. */
  predicate KeyChar(c: char)
  {
    'a' <= c <= 'z' || 'A' <= c <= 'Z' || '0' <= c <= '9' || c == '_'
  }

  /** The characters a generated variable name is made of. */
  predicate EnvNameChar(c: char)
  {
    'A' <= c <= 'Z' || '0' <= c <= '9' || c == '_'
  }

  /** Every character outside `[a-zA-Z0-9_]` replaced by one underscore. */
  function ReplaceNonKeyChars(key: string): (r: string)
    ensures |r| == |key|
    ensures forall i :: 0 <= i < |key| ==> KeyChar(r[i])
  {
    seq(|key|, i requires 0 <= i < |key| => if KeyChar(key[i]) then key[i] else '_')
  }

  /** `keyToEnvName`: a data key as an environment variable name. */
  function KeyToEnvName(key: string): (r: string)
    ensures |r| == |key|
    ensures forall i :: 0 <= i < |r| ==> EnvNameChar(r[i])
    ensures forall i :: 0 <= i < |key| && KeyChar(key[i]) ==> r[i] == AsciiUpper(key[i])
    ensures forall i :: 0 <= i < |key| && !KeyChar(key[i]) ==> r[i] == '_'
  {
    ToUpperAscii(ReplaceNonKeyChars(key))
  }

  /** A key is left as it is exactly when it already is a valid generated name. */
  lemma KeyToEnvNameFixedPoints(key: string)
    ensures KeyToEnvName(key) == key <==> forall i :: 0 <= i < |key| ==> EnvNameChar(key[i])
  {
    var r := KeyToEnvName(key);
    if forall i :: 0 <= i < |key| ==> EnvNameChar(key[i]) {
      forall i | 0 <= i < |key|
        ensures r[i] == key[i]
      {
        assert KeyChar(key[i]);
      }
    } else {
      var i :| 0 <= i < |key| && !EnvNameChar(key[i]);
      assert !EnvNameChar(key[i]) && EnvNameChar(r[i]);
    }
  }

  /** Applying the conversion a second time changes nothing. */
  lemma KeyToEnvNameIdempotent(key: string)
    ensures KeyToEnvName(KeyToEnvName(key)) == KeyToEnvName(key)
  {
    KeyToEnvNameFixedPoints(KeyToEnvName(key));
  }

  // ---------------------------------------------------------------- contains

  /** `contains`: an empty key list selects every key, otherwise the key must be listed. */
  method Contains(key: string, keyList: seq<string>) returns (found: bool)
    ensures found <==> keyList == [] || key in keyList
  {
    if |keyList| == 0 {
      return true;
    }
    for i := 0 to |keyList|
      invariant key !in keyList[..i]
    {
      if keyList[i] == key {
        return true;
      }
    }
    assert keyList[..|keyList|] == keyList;
    return false;
  }

  // ---------------------------------------------------------------- validateNoOverwrites

  /** The first existing variable with the given name (`findEnv`). */
  function FindEnv(existing: seq<EnvVar>, name: string): Option<EnvVar>
  {
    if |existing| == 0 then None
    else if existing[0].name == name then Some(existing[0])
    else FindEnv(existing[1..], name)
  }

  /** Nothing is found exactly when no variable has the name; otherwise the answer is
      the first variable of that name. */
  lemma {:induction false} FindEnvSpec(existing: seq<EnvVar>, name: string)
    ensures FindEnv(existing, name).None? <==> forall i :: 0 <= i < |existing| ==> existing[i].name != name
    ensures FindEnv(existing, name).Some? ==>
              exists i :: 0 <= i < |existing| && existing[i] == FindEnv(existing, name).value
                          && existing[i].name == name
                          && forall j :: 0 <= j < i ==> existing[j].name != name
  {
    if |existing| > 0 && existing[0].name != name {
      FindEnvSpec(existing[1..], name);
      var r := FindEnv(existing[1..], name);
      if r.Some? {
        var k :| 0 <= k < |existing| - 1 && existing[1..][k] == r.value && existing[1..][k].name == name
                 && forall j :: 0 <= j < k ==> existing[1..][j].name != name;
        forall j | 0 <= j < k + 1 ensures existing[j].name != name {
          if j > 0 { assert existing[j] == existing[1..][j - 1]; }
        }
        assert existing[k + 1] == r.value;
      } else {
        forall i | 0 <= i < |existing| ensures existing[i].name != name {
          if i > 0 { assert existing[i] == existing[1..][i - 1]; }
        }
      }
    }
  }

  /** A new variable would overwrite a different existing value. */
  predicate Overwrites(existing: seq<EnvVar>, e: EnvVar)
  {
    var current := FindEnv(existing, e.name);
    current.Some? && current.value.value != e.value
  }

  function OverwriteMessage(current: EnvVar): string
  {
    "'" + current.name + "' already has a value (" + current.value + "), and --overwrite is false"
  }

  /** `validateNoOverwrites`: the first new variable that would replace a different
      existing value is reported; redefining a variable to its present value is allowed. */
  function ValidateNoOverwrites(existing: seq<EnvVar>, env: seq<EnvVar>): (r: Option<string>)
    ensures r.None? <==> forall i :: 0 <= i < |env| ==> !Overwrites(existing, env[i])
    ensures r.Some? ==> exists i :: 0 <= i < |env| && Overwrites(existing, env[i])
                                    && (forall j :: 0 <= j < i ==> !Overwrites(existing, env[j]))
                                    && r.value == OverwriteMessage(FindEnv(existing, env[i].name).value)
  {
    if |env| == 0 then None
    else if Overwrites(existing, env[0]) then Some(OverwriteMessage(FindEnv(existing, env[0].name).value))
    else
      var r := ValidateNoOverwrites(existing, env[1..]);
      assert r.None? <==> forall i :: 1 <= i < |env| ==> !Overwrites(existing, env[i]) by {
        assert forall i :: 1 <= i < |env| ==> env[i] == env[1..][i - 1];
      }
      assert r.Some? ==> exists i :: 1 <= i < |env| && Overwrites(existing, env[i])
                                     && (forall j :: 0 <= j < i ==> !Overwrites(existing, env[j]))
                                     && r.value == OverwriteMessage(FindEnv(existing, env[i].name).value) by {
        if r.Some? {
          var k :| 0 <= k < |env| - 1 && Overwrites(existing, env[1..][k])
                   && (forall j :: 0 <= j < k ==> !Overwrites(existing, env[1..][j]))
                   && r.value == OverwriteMessage(FindEnv(existing, env[1..][k].name).value);
          forall j | 0 <= j < k + 1 ensures !Overwrites(existing, env[j]) {
            if j > 0 { assert env[j] == env[1..][j - 1]; }
          }
        }
      }
      r
  }

  // ---------------------------------------------------------------- Complete and Validate

  const EnvBeforeResourcesPrefix := "all resources must be specified before environment changes: "
  const ListWithOutputError := "--list and --output may not be specified together"
  const KeysWithoutFromError := "when specifying --keys, a configmap or secret must be provided with --from"

  /** The checks of `EnvOptions.Complete`: `--all` excludes `--selector`, and every
      resource argument must come before the first environment argument
      (`envArgsInOrder` is the verdict of kubectl's argument splitter). */
  function CompleteError(all: bool, selector: string, args: seq<string>, envArgsInOrder: bool): (r: Option<string>)
    ensures all && |selector| > 0 ==> r == Some(AllWithSelectorError)
    ensures !(all && |selector| > 0) && !envArgsInOrder ==> r == Some(EnvBeforeResourcesPrefix + Join(args, ' '))
    ensures r.None? <==> !(all && |selector| > 0) && envArgsInOrder
  {
    if all && |selector| > 0 then Some(AllWithSelectorError)
    else if !envArgsInOrder then Some(EnvBeforeResourcesPrefix + Join(args, ' '))
    else None
  }

  datatype EnvOptions = EnvOptions(local: bool, dryRunStrategy: DryRunStrategy, filenames: seq<string>,
                                   resources: seq<string>, list: bool, output: string,
                                   keys: seq<string>, from: string)

  predicate LocalWithServerDryRun(o: EnvOptions) { o.local && o.dryRunStrategy == DryRunServer }
  predicate NothingSelected(o: EnvOptions) { |o.filenames| == 0 && |o.resources| < 1 }
  predicate ListWithOutput(o: EnvOptions) { o.list && |o.output| > 0 }
  predicate KeysWithoutFrom(o: EnvOptions) { |o.keys| > 0 && |o.from| == 0 }

  /** `EnvOptions.Validate`: the first failing check, in this order, or none. */
  function Validate(o: EnvOptions): (r: Option<string>)
    ensures r.None? <==> !LocalWithServerDryRun(o) && !NothingSelected(o) && !ListWithOutput(o) && !KeysWithoutFrom(o)
    ensures r == Some(LocalServerDryRunError) <==> LocalWithServerDryRun(o)
    ensures r == Some(NoResourcesError) <==> !LocalWithServerDryRun(o) && NothingSelected(o)
    ensures r == Some(ListWithOutputError) <==> !LocalWithServerDryRun(o) && !NothingSelected(o) && ListWithOutput(o)
    ensures r == Some(KeysWithoutFromError) <==>
              !LocalWithServerDryRun(o) && !NothingSelected(o) && !ListWithOutput(o) && KeysWithoutFrom(o)
  {
    if LocalWithServerDryRun(o) then Some(LocalServerDryRunError)
    else if NothingSelected(o) then Some(NoResourcesError)
    else if ListWithOutput(o) then Some(ListWithOutputError)
    else if KeysWithoutFrom(o) then Some(KeysWithoutFromError)
    else None
  }

  // ---------------------------------------------------------------- prefix

  /** Every variable renamed to `prefix` followed by its old name, values and order kept. */
  function WithPrefix(env: seq<EnvVar>, prefix: string): (r: seq<EnvVar>)
    ensures |r| == |env|
    ensures forall i :: 0 <= i < |env| ==>
              r[i].value == env[i].value && HasPrefix(r[i].name, prefix) && r[i].name[|prefix|..] == env[i].name
  {
    seq(|env|, i requires 0 <= i < |env| => env[i].(name := prefix + env[i].name))
  }

  /** The prefix step of `RunEnv`: a non-empty `--prefix` is put in front of every
      collected variable's name, in place. */
  method ApplyPrefix(env: array<EnvVar>, prefix: string)
    modifies env
    ensures env[..] == WithPrefix(old(env[..]), prefix)
  {
    if |prefix| != 0 {
      for i := 0 to env.Length
        invariant forall j :: 0 <= j < i ==> env[j] == old(env[j]).(name := prefix + old(env[j]).name)
        invariant forall j :: i <= j < env.Length ==> env[j] == old(env[j])
      {
        env[i] := env[i].(name := prefix + env[i].name);
      }
    } else {
      forall i | 0 <= i < env.Length
        ensures env[i] == WithPrefix(old(env[..]), prefix)[i]
      {
        assert prefix + env[i].name == env[i].name;
      }
    }
  }
}
