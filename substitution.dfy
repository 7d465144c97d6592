/**
 * Address substitution in JSON messages (`replace_strings` of
 * wasm-deploy/src/utils.rs, src/utils.rs and src/contract.rs) and the two
 * single-field lookups `get_code_id` and `get_addr`.
 *
 * A string `prefix&name` names the contract `name`: the whole string is
 * replaced by that contract's registered address. The walk visits array
 * items and object values in order, rewriting in place; the first failure
 * stops it, and what was rewritten before stays rewritten. The three copies
 * differ only in the failure: the newer crate names the contract
 * (`AddrNotFound{name}`), the older ones do not.
 */
module Substitution {
  import opened Wrappers
  import opened Types
  import opened Environments
  import opened Registry

  /** `str::split_once('&')`: the text after the first `&`, if there is one. */
  function AfterAmpersand(s: string): (r: Option<string>)
    ensures r.Some? <==> '&' in s
    ensures r.Some? ==> exists i :: 0 <= i < |s| && s[i] == '&' && '&' !in s[..i] && r.value == s[i + 1..]
  {
    if |s| == 0 then None
    else if s[0] == '&' then
      assert '&' !in s[..0];
      Some(s[1..])
    else
      match AfterAmpersand(s[1..])
      case None => None
      case Some(t) =>
        var i :| 0 <= i < |s[1..]| && s[1..][i] == '&' && '&' !in s[1..][..i] && t == s[1..][i + 1..];
        assert s[..i + 1] == [s[0]] + s[1..][..i];
        Some(t)
  }

  /** The error for a named contract with no address, in the crate's own form. */
  function NoAddress(named: bool, name: string): DeployError {
    AddrNotFound(if named then Some(name) else None)
  }

  /** One string: what it becomes, or the failure. */
  function SubstituteString(s: string, contracts: seq<ContractInfo>, named: bool): (r: Result<string, DeployError>)
    ensures AfterAmpersand(s).None? ==> r == Ok(s)
    ensures AfterAmpersand(s).Some? && Lookup(contracts, AfterAmpersand(s).value).None? ==> r == Ok(s)
    ensures AfterAmpersand(s).Some? && Lookup(contracts, AfterAmpersand(s).value).Some? ==>
      var c := Lookup(contracts, AfterAmpersand(s).value).value;
      r == (if c.addr.Some? then Ok(c.addr.value) else Err(NoAddress(named, c.name)))
  {
    match AfterAmpersand(s)
    case None => Ok(s)
    case Some(name) =>
      match Lookup(contracts, name)
      case None => Ok(s)
      case Some(c) => if c.addr.Some? then Ok(c.addr.value) else Err(NoAddress(named, c.name))
  }

  /** The tree after the walk, and how the walk ended. */
  datatype Walked<T> = Walked(value: T, result: Result<(), DeployError>)

  /** The walk over one value. */
  function Substitute(v: Json, contracts: seq<ContractInfo>, named: bool): Walked<Json>
    decreases v, 1
  {
    match v
    case Str(s) =>
      (match SubstituteString(s, contracts, named)
       case Ok(t) => Walked(Str(t), Ok(()))
       case Err(e) => Walked(v, Err(e)))
    case Array(items) =>
      var w := SubstituteItems(v, items, contracts, named);
      Walked(Array(w.value), w.result)
    case Object(fields) =>
      var w := SubstituteFields(v, fields, contracts, named);
      Walked(Object(w.value), w.result)
    case _ => Walked(v, Ok(()))
  }

  /** The walk over the items of an array, left to right, stopping at the first failure. */
  function SubstituteItems(ghost parent: Json, items: seq<Json>, contracts: seq<ContractInfo>, named: bool): Walked<seq<Json>>
    requires forall i :: 0 <= i < |items| ==> items[i] < parent
    decreases parent, 0, |items|
  {
    if |items| == 0 then Walked([], Ok(()))
    else
      var head := Substitute(items[0], contracts, named);
      if head.result.Err? then Walked([head.value] + items[1..], head.result)
      else
        var rest := SubstituteItems(parent, items[1..], contracts, named);
        Walked([head.value] + rest.value, rest.result)
  }

  /** The walk over the values of an object, in iteration order; keys are not visited. */
  function SubstituteFields(ghost parent: Json, fields: seq<Field>, contracts: seq<ContractInfo>, named: bool): Walked<seq<Field>>
    requires forall i :: 0 <= i < |fields| ==> fields[i].value < parent
    decreases parent, 0, |fields|
  {
    if |fields| == 0 then Walked([], Ok(()))
    else
      var head := Substitute(fields[0].value, contracts, named);
      var f := fields[0].(value := head.value);
      if head.result.Err? then Walked([f] + fields[1..], head.result)
      else
        var rest := SubstituteFields(parent, fields[1..], contracts, named);
        Walked([f] + rest.value, rest.result)
  }

  /** What a caller of `replace_strings` goes on with: the rewritten message, or the walk's error. */
  function Replaced(v: Json, contracts: seq<ContractInfo>, named: bool): (r: Result<Json, DeployError>)
    ensures r.Ok? <==> Substitute(v, contracts, named).result.Ok?
    ensures r.Ok? ==> r.value == Substitute(v, contracts, named).value
    ensures r.Err? ==> r.error == Substitute(v, contracts, named).result.error
  {
    var w := Substitute(v, contracts, named);
    if w.result.Ok? then Ok(w.value) else Err(w.result.error)
  }

  // ----- The walk in place -----

  /**
   * `replace_strings`: rewrites the value in place, array items and object
   * values left to right, returning at the first failure with whatever was
   * rewritten so far.
   */
  method ReplaceStrings(v: Json, contracts: seq<ContractInfo>, named: bool) returns (w: Json, r: Result<(), DeployError>)
    ensures Walked(w, r) == Substitute(v, contracts, named)
    decreases v, 1
  {
    match v {
      case Str(s) =>
        var t := SubstituteString(s, contracts, named);
        if t.Err? {
          return v, Err(t.error);
        }
        return Str(t.value), Ok(());
      case Array(items) =>
        var out;
        out, r := ReplaceItems(v, items, contracts, named);
        return Array(out), r;
      case Object(fields) =>
        var out;
        out, r := ReplaceFields(v, fields, contracts, named);
        return Object(out), r;
      case _ =>
        return v, Ok(());
    }
  }

  /** The array arm of `replace_strings`: each item in turn, stopping at the first failure. */
  method ReplaceItems(ghost parent: Json, items: seq<Json>, contracts: seq<ContractInfo>, named: bool)
    returns (out: seq<Json>, r: Result<(), DeployError>)
    requires forall j :: 0 <= j < |items| ==> items[j] < parent
    ensures Walked(out, r) == SubstituteItems(parent, items, contracts, named)
    decreases parent, 0
  {
    out := items;
    var i := 0;
    while i < |items|
      invariant 0 <= i <= |items| && |out| == |items|
      invariant forall j :: 0 <= j < i ==> Substitute(items[j], contracts, named) == Walked(out[j], Ok(()))
      invariant out[i..] == items[i..]
    {
      var x, e := ReplaceStrings(items[i], contracts, named);
      ItemsPrefix(parent, items, out, i, contracts, named);
      ghost var old_out := out;
      out := out[i := x];
      if e.Err? {
        SpliceAt(old_out, items, i, x);
        return out, e;
      }
      assert e.value == ();
      i := i + 1;
    }
    ItemsPrefix(parent, items, out, i, contracts, named);
    assert out[..i] == out;
    assert items[i..] == [];
    assert SubstituteItems(parent, items[i..], contracts, named) == Walked([], Ok(()));
    assert SubstituteItems(parent, items, contracts, named) == Walked(out[..i] + [], Ok(()));
    assert out[..i] + [] == out;
    return out, Ok(());
  }

  /** The object arm of `replace_strings`: each value in turn, keys untouched, stopping at the first failure. */
  method ReplaceFields(ghost parent: Json, fields: seq<Field>, contracts: seq<ContractInfo>, named: bool)
    returns (out: seq<Field>, r: Result<(), DeployError>)
    requires forall j :: 0 <= j < |fields| ==> fields[j].value < parent
    ensures Walked(out, r) == SubstituteFields(parent, fields, contracts, named)
    decreases parent, 0
  {
    out := fields;
    var i := 0;
    while i < |fields|
      invariant 0 <= i <= |fields| && |out| == |fields|
      invariant forall j :: 0 <= j < i ==>
        Substitute(fields[j].value, contracts, named) == Walked(out[j].value, Ok(())) && out[j] == fields[j].(value := out[j].value)
      invariant out[i..] == fields[i..]
    {
      var x, e := ReplaceStrings(fields[i].value, contracts, named);
      FieldsPrefix(parent, fields, out, i, contracts, named);
      ghost var old_out := out;
      out := out[i := fields[i].(value := x)];
      if e.Err? {
        SpliceAt(old_out, fields, i, fields[i].(value := x));
        return out, e;
      }
      assert e.value == ();
      i := i + 1;
    }
    FieldsPrefix(parent, fields, out, i, contracts, named);
    assert out[..i] == out;
    assert fields[i..] == [];
    assert SubstituteFields(parent, fields[i..], contracts, named) == Walked([], Ok(()));
    assert SubstituteFields(parent, fields, contracts, named) == Walked(out[..i] + [], Ok(()));
    assert out[..i] + [] == out;
    return out, Ok(());
  }

  /** Replacing item i of `s`, whose suffix from i is that of `t`. */
  lemma SpliceAt<T>(s: seq<T>, t: seq<T>, i: nat, x: T)
    requires i < |s| == |t| && s[i..] == t[i..]
    ensures s[..i] + ([x] + t[i + 1..]) == s[i := x]
  {
    assert t[i + 1..] == s[i + 1..];
  }

  /** Splitting a prefix of `s` at its head. */
  lemma ConsPrefix<T>(s: seq<T>, i: nat, r: seq<T>)
    requires 0 < i <= |s|
    ensures [s[0]] + (s[1..][..i - 1] + r) == s[..i] + r
  {
    assert s[..i] == [s[0]] + s[1..][..i - 1];
  }

  /** Once the first i items have been rewritten without failure, the walk continues from item i. */
  lemma {:induction false} ItemsPrefix(parent: Json, items: seq<Json>, out: seq<Json>, i: nat, contracts: seq<ContractInfo>, named: bool)
    requires forall j :: 0 <= j < |items| ==> items[j] < parent
    requires i <= |items| && |out| == |items|
    requires forall j :: 0 <= j < i ==> Substitute(items[j], contracts, named) == Walked(out[j], Ok(()))
    ensures SubstituteItems(parent, items, contracts, named) ==
      Walked(out[..i] + SubstituteItems(parent, items[i..], contracts, named).value,
             SubstituteItems(parent, items[i..], contracts, named).result)
    decreases i
  {
    if i > 0 {
      ItemsPrefix(parent, items[1..], out[1..], i - 1, contracts, named);
      assert items[1..][i - 1..] == items[i..];
      var tail := SubstituteItems(parent, items[1..], contracts, named);
      var rest := SubstituteItems(parent, items[i..], contracts, named);
      assert tail == Walked(out[1..][..i - 1] + rest.value, rest.result);
      assert SubstituteItems(parent, items, contracts, named) == Walked([out[0]] + tail.value, tail.result);
      ConsPrefix(out, i, rest.value);
    } else {
      var all := SubstituteItems(parent, items, contracts, named);
      assert out[..0] + all.value == all.value && items[0..] == items;
      assert all == Walked(all.value, all.result);
    }
  }

  /** Once the first i object values have been rewritten without failure, the walk continues from entry i. */
  lemma {:induction false} FieldsPrefix(parent: Json, fields: seq<Field>, out: seq<Field>, i: nat, contracts: seq<ContractInfo>, named: bool)
    requires forall j :: 0 <= j < |fields| ==> fields[j].value < parent
    requires i <= |fields| && |out| == |fields|
    requires forall j :: 0 <= j < i ==>
      Substitute(fields[j].value, contracts, named) == Walked(out[j].value, Ok(())) && out[j] == fields[j].(value := out[j].value)
    ensures SubstituteFields(parent, fields, contracts, named) ==
      Walked(out[..i] + SubstituteFields(parent, fields[i..], contracts, named).value,
             SubstituteFields(parent, fields[i..], contracts, named).result)
    decreases i
  {
    if i > 0 {
      FieldsPrefix(parent, fields[1..], out[1..], i - 1, contracts, named);
      assert fields[1..][i - 1..] == fields[i..];
      var tail := SubstituteFields(parent, fields[1..], contracts, named);
      var rest := SubstituteFields(parent, fields[i..], contracts, named);
      assert tail == Walked(out[1..][..i - 1] + rest.value, rest.result);
      assert SubstituteFields(parent, fields, contracts, named) == Walked([out[0]] + tail.value, tail.result);
      ConsPrefix(out, i, rest.value);
    } else {
      var all := SubstituteFields(parent, fields, contracts, named);
      assert out[..0] + all.value == all.value && fields[0..] == fields;
      assert all == Walked(all.value, all.result);
    }
  }

  // ----- What the walk promises -----

  /** `a` and `b` differ at most in their strings: same constructors, same lengths, same keys, same other leaves. */
  predicate SameShape(a: Json, b: Json)
    decreases a
  {
    match a
    case Str(_) => b.Str?
    case Array(items) =>
      b.Array? && |b.items| == |items| && forall i :: 0 <= i < |items| ==> SameShape(items[i], b.items[i])
    case Object(fields) =>
      b.Object? && |b.fields| == |fields| &&
      forall i :: 0 <= i < |fields| ==> b.fields[i].key == fields[i].key && SameShape(fields[i].value, b.fields[i].value)
    case _ => b == a
  }

  lemma {:induction false} SameShapeReflexive(v: Json)
    ensures SameShape(v, v)
    decreases v
  {
    match v
    case Array(items) =>
      forall i | 0 <= i < |items| ensures SameShape(items[i], items[i]) {
        SameShapeReflexive(items[i]);
      }
    case Object(fields) =>
      forall i | 0 <= i < |fields| ensures SameShape(fields[i].value, fields[i].value) {
        SameShapeReflexive(fields[i].value);
      }
    case _ =>
  }

  /** The walk only ever replaces strings: object keys, null, booleans and numbers are left as they are, and no item or entry is added or dropped. */
  lemma {:induction false} SubstituteKeepsShape(v: Json, contracts: seq<ContractInfo>, named: bool)
    ensures SameShape(v, Substitute(v, contracts, named).value)
    decreases v, 1
  {
    match v
    case Array(items) => ItemsKeepShape(v, items, contracts, named);
    case Object(fields) => FieldsKeepShape(v, fields, contracts, named);
    case _ =>
  }

  lemma {:induction false} ItemsKeepShape(parent: Json, items: seq<Json>, contracts: seq<ContractInfo>, named: bool)
    requires forall i :: 0 <= i < |items| ==> items[i] < parent
    ensures |SubstituteItems(parent, items, contracts, named).value| == |items|
    ensures forall i :: 0 <= i < |items| ==> SameShape(items[i], SubstituteItems(parent, items, contracts, named).value[i])
    decreases parent, 0, |items|
  {
    if |items| > 0 {
      var head := Substitute(items[0], contracts, named);
      SubstituteKeepsShape(items[0], contracts, named);
      var w := SubstituteItems(parent, items, contracts, named);
      if head.result.Err? {
        assert w.value == [head.value] + items[1..];
        forall i | 1 <= i < |items| ensures SameShape(items[i], w.value[i]) {
          SameShapeReflexive(items[i]);
        }
      } else {
        var rest := SubstituteItems(parent, items[1..], contracts, named);
        ItemsKeepShape(parent, items[1..], contracts, named);
        assert w.value == [head.value] + rest.value;
        forall i | 1 <= i < |items| ensures SameShape(items[i], w.value[i]) {
          assert w.value[i] == rest.value[i - 1] && items[i] == items[1..][i - 1];
        }
      }
    }
  }

  lemma {:induction false} FieldsKeepShape(parent: Json, fields: seq<Field>, contracts: seq<ContractInfo>, named: bool)
    requires forall i :: 0 <= i < |fields| ==> fields[i].value < parent
    ensures |SubstituteFields(parent, fields, contracts, named).value| == |fields|
    ensures forall i :: 0 <= i < |fields| ==>
      SubstituteFields(parent, fields, contracts, named).value[i].key == fields[i].key &&
      SameShape(fields[i].value, SubstituteFields(parent, fields, contracts, named).value[i].value)
    decreases parent, 0, |fields|
  {
    if |fields| > 0 {
      var head := Substitute(fields[0].value, contracts, named);
      SubstituteKeepsShape(fields[0].value, contracts, named);
      var w := SubstituteFields(parent, fields, contracts, named);
      if head.result.Err? {
        assert w.value == [fields[0].(value := head.value)] + fields[1..];
        forall i | 1 <= i < |fields| ensures SameShape(fields[i].value, w.value[i].value) {
          SameShapeReflexive(fields[i].value);
        }
      } else {
        var rest := SubstituteFields(parent, fields[1..], contracts, named);
        FieldsKeepShape(parent, fields[1..], contracts, named);
        assert w.value == [fields[0].(value := head.value)] + rest.value;
        forall i | 1 <= i < |fields| ensures w.value[i].key == fields[i].key && SameShape(fields[i].value, w.value[i].value) {
          assert w.value[i] == rest.value[i - 1] && fields[i] == fields[1..][i - 1];
        }
      }
    }
  }

  /** A string the walk leaves alone: no `&`, or the text after it names no contract. */
  predicate Untouched(s: string, contracts: seq<ContractInfo>) {
    AfterAmpersand(s).None? || Lookup(contracts, AfterAmpersand(s).value).None?
  }

  /** No string anywhere in `v` refers to a registered contract. */
  predicate NoReference(v: Json, contracts: seq<ContractInfo>)
    decreases v
  {
    match v
    case Str(s) => Untouched(s, contracts)
    case Array(items) => forall i :: 0 <= i < |items| ==> NoReference(items[i], contracts)
    case Object(fields) => forall i :: 0 <= i < |fields| ==> NoReference(fields[i].value, contracts)
    case _ => true
  }

  /** A value with no reference to a registered contract comes back unchanged, and the walk succeeds. */
  lemma {:induction false} NoReferenceUnchanged(v: Json, contracts: seq<ContractInfo>, named: bool)
    requires NoReference(v, contracts)
    ensures Substitute(v, contracts, named) == Walked(v, Ok(()))
    decreases v, 1
  {
    match v
    case Array(items) => ItemsUnchanged(v, items, contracts, named);
    case Object(fields) => FieldsUnchanged(v, fields, contracts, named);
    case _ =>
  }

  lemma {:induction false} ItemsUnchanged(parent: Json, items: seq<Json>, contracts: seq<ContractInfo>, named: bool)
    requires forall i :: 0 <= i < |items| ==> items[i] < parent && NoReference(items[i], contracts)
    ensures SubstituteItems(parent, items, contracts, named) == Walked(items, Ok(()))
    decreases parent, 0, |items|
  {
    if |items| > 0 {
      NoReferenceUnchanged(items[0], contracts, named);
      ItemsUnchanged(parent, items[1..], contracts, named);
      assert [items[0]] + items[1..] == items;
    }
  }

  lemma {:induction false} FieldsUnchanged(parent: Json, fields: seq<Field>, contracts: seq<ContractInfo>, named: bool)
    requires forall i :: 0 <= i < |fields| ==> fields[i].value < parent && NoReference(fields[i].value, contracts)
    ensures SubstituteFields(parent, fields, contracts, named) == Walked(fields, Ok(()))
    decreases parent, 0, |fields|
  {
    if |fields| > 0 {
      NoReferenceUnchanged(fields[0].value, contracts, named);
      FieldsUnchanged(parent, fields[1..], contracts, named);
      assert fields[0].(value := fields[0].value) == fields[0];
      assert [fields[0]] + fields[1..] == fields;
    }
  }

  /**
   * The only failure is a referenced contract without an address: the error
   * is that contract's `AddrNotFound`, and the contract is the first
   * registered entry of its name.
   */
  lemma {:induction false} SubstituteFailure(v: Json, contracts: seq<ContractInfo>, named: bool)
    ensures Substitute(v, contracts, named).result.Err? ==>
      exists c: ContractInfo :: Lookup(contracts, c.name) == Some(c) && c.addr.None? &&
        Substitute(v, contracts, named).result.error == NoAddress(named, c.name)
    decreases v, 1
  {
    match v
    case Str(s) =>
      if SubstituteString(s, contracts, named).Err? {
        var c := Lookup(contracts, AfterAmpersand(s).value).value;
        assert Lookup(contracts, c.name) == Some(c);
      }
    case Array(items) => ItemsFailure(v, items, contracts, named);
    case Object(fields) => FieldsFailure(v, fields, contracts, named);
    case _ =>
  }

  lemma {:induction false} ItemsFailure(parent: Json, items: seq<Json>, contracts: seq<ContractInfo>, named: bool)
    requires forall i :: 0 <= i < |items| ==> items[i] < parent
    ensures SubstituteItems(parent, items, contracts, named).result.Err? ==>
      exists c: ContractInfo :: Lookup(contracts, c.name) == Some(c) && c.addr.None? &&
        SubstituteItems(parent, items, contracts, named).result.error == NoAddress(named, c.name)
    decreases parent, 0, |items|
  {
    if |items| > 0 {
      SubstituteFailure(items[0], contracts, named);
      ItemsFailure(parent, items[1..], contracts, named);
    }
  }

  lemma {:induction false} FieldsFailure(parent: Json, fields: seq<Field>, contracts: seq<ContractInfo>, named: bool)
    requires forall i :: 0 <= i < |fields| ==> fields[i].value < parent
    ensures SubstituteFields(parent, fields, contracts, named).result.Err? ==>
      exists c: ContractInfo :: Lookup(contracts, c.name) == Some(c) && c.addr.None? &&
        SubstituteFields(parent, fields, contracts, named).result.error == NoAddress(named, c.name)
    decreases parent, 0, |fields|
  {
    if |fields| > 0 {
      SubstituteFailure(fields[0].value, contracts, named);
      FieldsFailure(parent, fields[1..], contracts, named);
    }
  }

  /** When every registered contract has an address, the walk cannot fail. */
  lemma AllAddressedSucceeds(v: Json, contracts: seq<ContractInfo>, named: bool)
    requires forall i :: 0 <= i < |contracts| ==> contracts[i].addr.Some?
    ensures Substitute(v, contracts, named).result.Ok?
  {
    SubstituteFailure(v, contracts, named);
  }

  /** The older crates' copies (error without a name) rewrite exactly the same strings and fail on exactly the same inputs. */
  lemma {:induction false} NamingOnlyChangesTheError(v: Json, contracts: seq<ContractInfo>)
    ensures Substitute(v, contracts, true).value == Substitute(v, contracts, false).value
    ensures Substitute(v, contracts, true).result.Ok? == Substitute(v, contracts, false).result.Ok?
    decreases v, 1
  {
    match v
    case Array(items) => ItemsNaming(v, items, contracts);
    case Object(fields) => FieldsNaming(v, fields, contracts);
    case _ =>
  }

  lemma {:induction false} ItemsNaming(parent: Json, items: seq<Json>, contracts: seq<ContractInfo>)
    requires forall i :: 0 <= i < |items| ==> items[i] < parent
    ensures SubstituteItems(parent, items, contracts, true).value == SubstituteItems(parent, items, contracts, false).value
    ensures SubstituteItems(parent, items, contracts, true).result.Ok? == SubstituteItems(parent, items, contracts, false).result.Ok?
    decreases parent, 0, |items|
  {
    if |items| > 0 {
      NamingOnlyChangesTheError(items[0], contracts);
      ItemsNaming(parent, items[1..], contracts);
    }
  }

  lemma {:induction false} FieldsNaming(parent: Json, fields: seq<Field>, contracts: seq<ContractInfo>)
    requires forall i :: 0 <= i < |fields| ==> fields[i].value < parent
    ensures SubstituteFields(parent, fields, contracts, true).value == SubstituteFields(parent, fields, contracts, false).value
    ensures SubstituteFields(parent, fields, contracts, true).result.Ok? == SubstituteFields(parent, fields, contracts, false).result.Ok?
    decreases parent, 0, |fields|
  {
    if |fields| > 0 {
      NamingOnlyChangesTheError(fields[0].value, contracts);
      FieldsNaming(parent, fields[1..], contracts);
    }
  }

  // ----- Single-field lookups -----

  /** `get_code_id`: the code id of the named contract in the active environment. */
  function GetCodeId(config: Config, name: string): (r: Result<u64, DeployError>)
    reads config
    ensures ActiveIndex(config.envs).None? ==> r == Err(EnvNotFound)
    ensures ActiveIndex(config.envs).Some? && Lookup(ActiveEntries(config.envs), name).None? ==>
      r == Err(ContractNotFound(Some(name)))
    ensures ActiveIndex(config.envs).Some? && Lookup(ActiveEntries(config.envs), name).Some? ==>
      (r.Ok? <==> Lookup(ActiveEntries(config.envs), name).value.codeId.Some?) &&
      (r.Ok? ==> Lookup(ActiveEntries(config.envs), name).value.codeId == Some(r.value)) &&
      (r.Err? ==> r.error == CodeIdNotFound)
  {
    match config.GetContract(name)
    case Err(e) => Err(e)
    case Ok(c) =>
      match c.codeId
      case Some(id) => Ok(id)
      case None => Err(CodeIdNotFound)
  }

  /** `get_addr`: the address of the named contract in the active environment. */
  function GetAddr(config: Config, name: string): (r: Result<string, DeployError>)
    reads config
    ensures ActiveIndex(config.envs).None? ==> r == Err(EnvNotFound)
    ensures ActiveIndex(config.envs).Some? && Lookup(ActiveEntries(config.envs), name).None? ==>
      r == Err(ContractNotFound(Some(name)))
    ensures ActiveIndex(config.envs).Some? && Lookup(ActiveEntries(config.envs), name).Some? ==>
      (r.Ok? <==> Lookup(ActiveEntries(config.envs), name).value.addr.Some?) &&
      (r.Ok? ==> Lookup(ActiveEntries(config.envs), name).value.addr == Some(r.value)) &&
      (r.Err? ==> r.error == AddrNotFound(Some(name)))
  {
    match config.GetContract(name)
    case Err(e) => Err(e)
    case Ok(c) =>
      match c.addr
      case Some(a) => Ok(a)
      case None => Err(AddrNotFound(Some(name)))
  }
}
