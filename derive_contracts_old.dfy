/**
 * The older attribute macro of wasm-deploy-derive/src/contracts_old.rs: one
 * `#[contracts(..)]` attribute holds either a single option set
 * `name: "..", admin: .., instantiate: ..` or a list of braced option sets;
 * one unit variant of the generated `Contracts` enum is made per set.
 */
module DeriveContractsOld {
  import opened Wrappers
  import opened Tokens
  import opened OrderedMap
  import DeriveContracts

  /** `Value`: a path (a message type), or else a string literal, with its value. */
  datatype Value = TypeValue(path: string) | StrValue(value: string)

  const ExpectedType := "expected a type"
  const ExpectedStr := "expected a string literal"

  /** `Value::parse`: a path if the text parses as one; only otherwise a string literal. */
  function ParseValue(text: string, syn: Syntax): (r: Result<Value, MacroError>)
    ensures syn.isPath(text) ==> r == Ok(TypeValue(text))
    ensures !syn.isPath(text) ==> (r.Ok? <==> syn.strValue(text).Some?)
    ensures r.Ok? && r.value.StrValue? ==> !syn.isPath(text) && syn.strValue(text) == Some(r.value.value)
    ensures r.Err? ==> r.error.SynError?
  {
    if syn.isPath(text) then Ok(TypeValue(text))
    else match syn.strValue(text)
      case Some(v) => Ok(StrValue(v))
      case None => Err(SynError(Expected("string literal")))
  }

  /** `Pair::parse`: an identifier, `:`, and a value; no key is refused here. */
  function ParsePair(item: Item, syn: Syntax): (r: Result<(string, Value), MacroError>)
    ensures r.Ok? <==> item.KeyValue? && item.sep == ':' && ParseValue(item.value, syn).Ok?
    ensures r.Ok? ==> r.value == (item.key, ParseValue(item.value, syn).value)
    ensures r.Err? ==> r.error.SynError?
  {
    if !item.KeyValue? then Err(SynError(Expected("identifier")))
    else if item.sep != ':' then Err(SynError(Expected("`:`")))
    else
      var v :- ParseValue(item.value, syn);
      Ok((item.key, v))
  }

  function PairParser(syn: Syntax): Item -> Result<(string, Value), MacroError> {
    (item: Item) => ParsePair(item, syn)
  }

  /** The options of one contract; `None` where an optional message type was not given. */
  datatype Options = Options(
    name: string,
    admin: Value,
    instantiate: string,
    execute: Option<string>,
    query: Option<string>,
    migrate: Option<string>,
    cw20Send: Option<string>)

  /** The known keys, in the order `Options::parse` removes them. */
  const Drain: seq<string> := ["name", "admin", "instantiate", "execute", "query", "migrate", "cw20_send"]

  /** The place of a key in `Drain`, or -1 for any other key. */
  function KeyIndex(k: string): (r: int)
    ensures -1 <= r < |Drain|
    ensures r >= 0 ==> Drain[r] == k
    ensures r == -1 <==> k !in Drain
  {
    if k == "name" then 0
    else if k == "admin" then 1
    else if k == "instantiate" then 2
    else if k == "execute" then 3
    else if k == "query" then 4
    else if k == "migrate" then 5
    else if k == "cw20_send" then 6
    else -1
  }

  /** The keys of the pairs that are not known keys, each as often as its last pair occurs: once. */
  function Unknown(pairs: seq<(string, Value)>): (r: seq<string>)
    ensures forall k :: k in r <==> KeyIndex(k) < 0 && Last(pairs, k).Some?
  {
    if |pairs| == 0 then []
    else
      var n := |pairs| - 1;
      Unknown(pairs[..n]) + if KeyIndex(pairs[n].0) < 0 && Last(pairs[..n], pairs[n].0).None? then [pairs[n].0] else []
  }

  /** An optional message type given as a string literal, which `unwrap_type` refuses. */
  predicate StrGiven(pairs: seq<(string, Value)>, key: string) {
    IsStr(Last(pairs, key))
  }

  predicate IsStr(v: Option<Value>) {
    v.Some? && v.value.StrValue?
  }

  /** The path an optional message type gives. */
  function TypeOf(v: Option<Value>): Option<string> {
    if v.Some? && v.value.TypeValue? then Some(v.value.path) else None
  }

  /** The panic when a key outside the known ones is left over. */
  function UnknownOption(key: string): MacroError {
    Panic("unknown generate_api option: " + key)
  }

  /**
   * The mandatory options, as the last pair of each key gives them, checked
   * in the order they are removed: a missing `name` panics, as does one that
   * is not a string literal; then a missing `admin` or `instantiate`, and an
   * `instantiate` that is a string literal.
   */
  function Mandatory(pairs: seq<(string, Value)>): (r: Result<(string, Value, string), MacroError>)
    ensures r.Ok? <==> (Last(pairs, "name").Some? && Last(pairs, "name").value.StrValue?
      && Last(pairs, "admin").Some? && Last(pairs, "instantiate").Some? && Last(pairs, "instantiate").value.TypeValue?)
    ensures r.Err? ==> r.error.Panic?
  {
    var name, admin, instantiate := Last(pairs, "name"), Last(pairs, "admin"), Last(pairs, "instantiate");
    if name.None? then Err(Panic(UnwrapNone))
    else if !name.value.StrValue? then Err(Panic(ExpectedStr))
    else if admin.None? || instantiate.None? then Err(Panic(UnwrapNone))
    else if !instantiate.value.TypeValue? then Err(Panic(ExpectedType))
    else Ok((name.value.value, admin.value, instantiate.value.path))
  }

  /** The optional message types; one given as a string literal panics. */
  function OptionalTypes(pairs: seq<(string, Value)>): (r: Result<(Option<string>, Option<string>, Option<string>, Option<string>), MacroError>)
    ensures r.Err? <==> StrGiven(pairs, "execute") || StrGiven(pairs, "query") || StrGiven(pairs, "migrate") || StrGiven(pairs, "cw20_send")
    ensures r.Err? ==> r.error == Panic(ExpectedType)
  {
    Unwrapped(Last(pairs, "execute"), Last(pairs, "query"), Last(pairs, "migrate"), Last(pairs, "cw20_send"))
  }

  /** `map(|ty| ty.unwrap_type())` on each of four optional values: their paths, or a panic if any is a string literal. */
  function Unwrapped(execute: Option<Value>, query: Option<Value>, migrate: Option<Value>, cw20Send: Option<Value>)
    : (r: Result<(Option<string>, Option<string>, Option<string>, Option<string>), MacroError>)
    ensures r.Err? <==> IsStr(execute) || IsStr(query) || IsStr(migrate) || IsStr(cw20Send)
    ensures r.Err? ==> r.error == Panic(ExpectedType)
    ensures r.Ok? ==> r.value.0.Some? == execute.Some? && r.value.1.Some? == query.Some? && r.value.2.Some? == migrate.Some? && r.value.3.Some? == cw20Send.Some?
  {
    if IsStr(execute) || IsStr(query) || IsStr(migrate) || IsStr(cw20Send) then Err(Panic(ExpectedType))
    else Ok((TypeOf(execute), TypeOf(query), TypeOf(migrate), TypeOf(cw20Send)))
  }

  /**
   * What `Options::parse` yields, stated on the parsed pairs: the panics of
   * the mandatory options, then of the optional ones, then a key left over,
   * the least such key; else the options.
   */
  function OptionsFrom(pairs: seq<(string, Value)>): Result<Options, MacroError> {
    match Mandatory(pairs)
    case Err(e) => Err(e)
    case Ok(m) =>
      match OptionalTypes(pairs)
      case Err(e) => Err(e)
      case Ok(t) =>
        if |Unknown(pairs)| > 0 then Err(UnknownOption(Least(Unknown(pairs))))
        else Ok(Options(m.0, m.1, m.2, t.0, t.1, t.2, t.3))
  }

  /** `Options::parse` on a list of items: a parse error of any pair, or else the options the pairs give. */
  function OptionsOf(items: seq<Item>, syn: Syntax): Result<Options, MacroError> {
    match EachInTurn(items, PairParser(syn))
    case Err(e) => Err(e)
    case Ok(pairs) => OptionsFrom(pairs)
  }

  /** A table agrees with the collected pairs on every key not yet removed, and holds no removed key. */
  ghost predicate Agrees(table: seq<Entry<Value>>, pairs: seq<(string, Value)>, removed: nat) {
    forall k :: Get(table, k) == if 0 <= KeyIndex(k) < removed then None else Last(pairs, k)
  }

  /**
   * `Options::parse`: the pairs are collected into a `BTreeMap`, and each
   * known key is removed and checked in turn; a key left over panics, naming
   * the first key of the map.
   */
  method ParseOptions(items: seq<Item>, syn: Syntax) returns (r: Result<Options, MacroError>)
    ensures r == OptionsOf(items, syn)
  {
    var parsed := EachInTurn(items, PairParser(syn));
    if parsed.Err? {
      return Err(parsed.error);
    }
    var pairs := parsed.value;
    var table := Collect(pairs);
    assert Agrees(table, pairs, 0);

    var mandatory;
    mandatory, table := TakeMandatory(table, pairs);
    if mandatory.Err? {
      return Err(mandatory.error);
    }
    var optional;
    optional, table := TakeOptional(table, pairs);
    if optional.Err? {
      return Err(optional.error);
    }
    var m, t := mandatory.value, optional.value;

    LeftOver(table, pairs);
    if |table| > 0 {
      return Err(UnknownOption(table[0].key));
    }
    r := Ok(Options(m.0, m.1, m.2, t.0, t.1, t.2, t.3));
  }

  /**
   * `name`, `admin` and `instantiate`, removed and checked in turn: the
   * value must be present, `name` a string literal, `instantiate` a path.
   */
  method TakeMandatory(table: seq<Entry<Value>>, ghost pairs: seq<(string, Value)>)
    returns (r: Result<(string, Value, string), MacroError>, rest: seq<Entry<Value>>)
    requires Ordered(table) && Agrees(table, pairs, 0)
    ensures r == Mandatory(pairs)
    ensures r.Ok? ==> Ordered(rest) && Agrees(rest, pairs, 3)
  {
    MandatoryDrained();
    var name, admin, instantiate;
    name, rest := Take(table, 0, pairs);  // "name"
    if name.None? {
      return Err(Panic(UnwrapNone)), rest;
    }
    if !name.value.StrValue? {
      return Err(Panic(ExpectedStr)), rest;
    }
    admin, rest := Take(rest, 1, pairs);  // "admin"
    if admin.None? {
      return Err(Panic(UnwrapNone)), rest;
    }
    instantiate, rest := Take(rest, 2, pairs);  // "instantiate"
    if instantiate.None? {
      return Err(Panic(UnwrapNone)), rest;
    }
    if !instantiate.value.TypeValue? {
      return Err(Panic(ExpectedType)), rest;
    }
    r := Ok((name.value.value, admin.value, instantiate.value.path));
  }

  /**
   * The four optional message types, removed in turn (`execute`, `query`,
   * `migrate`, `cw20_send`); one given as a string literal panics.
   */
  method TakeOptional(table: seq<Entry<Value>>, ghost pairs: seq<(string, Value)>)
    returns (r: Result<(Option<string>, Option<string>, Option<string>, Option<string>), MacroError>, rest: seq<Entry<Value>>)
    requires Ordered(table) && Agrees(table, pairs, 3)
    ensures r == OptionalTypes(pairs)
    ensures Ordered(rest) && Agrees(rest, pairs, |Drain|)
  {
    var execute, query, migrate, cw20Send;
    execute, rest := Take(table, 3, pairs);  // "execute"
    assert execute == Last(pairs, "execute");
    query, rest := Take(rest, 4, pairs);  // "query"
    assert query == Last(pairs, "query");
    migrate, rest := Take(rest, 5, pairs);  // "migrate"
    assert migrate == Last(pairs, "migrate");
    cw20Send, rest := Take(rest, 6, pairs);  // "cw20_send"
    assert cw20Send == Last(pairs, "cw20_send");
    r := Unwrapped(execute, query, migrate, cw20Send);
  }

  /** The first three known keys, the mandatory ones. */
  lemma MandatoryDrained()
    ensures Drain[0] == "name" && Drain[1] == "admin" && Drain[2] == "instantiate"
  {
  }

  /** `map.remove(&key)` for the `removed`-th known key: the value of its last pair, if any. */
  method Take(table: seq<Entry<Value>>, removed: nat, ghost pairs: seq<(string, Value)>)
    returns (taken: Option<Value>, rest: seq<Entry<Value>>)
    requires removed < |Drain| && Ordered(table) && Agrees(table, pairs, removed)
    ensures taken == Last(pairs, Drain[removed])
    ensures Ordered(rest) && Agrees(rest, pairs, removed + 1)
  {
    var key := Drain[removed];
    assert KeyIndex(key) == removed by {
      assert Drain == ["name", "admin", "instantiate", "execute", "query", "migrate", "cw20_send"];
    }
    var t := Remove(table, key);
    taken, rest := t.0, t.1;
  }

  /**
   * Once the known keys are removed, the table holds exactly the unknown keys
   * of the pairs, so it is empty just when there are none, and its first key
   * is the least of them.
   */
  lemma {:induction false} LeftOver(table: seq<Entry<Value>>, pairs: seq<(string, Value)>)
    requires Ordered(table) && Agrees(table, pairs, |Drain|)
    ensures |table| > 0 <==> |Unknown(pairs)| > 0
    ensures |table| > 0 ==> table[0].key == Least(Unknown(pairs))
  {
    var unknown := Unknown(pairs);
    if |unknown| > 0 {
      assert Get(table, unknown[0]).Some?;
    }
    if |table| > 0 {
      GetAt(table, 0);
      var first := table[0].key;
      assert first in unknown;
      forall k | k in unknown ensures k == first || Less(first, k) {
        FirstIsLeast(table, k);
      }
      LeastUnique(unknown, first, Least(unknown));
    }
  }

  /** `BracedOptions::parse`: a braced group whose content is one option set. */
  function ParseBraced(item: Item, syn: Syntax): (r: Result<Options, MacroError>)
    ensures !item.Braced? ==> r == Err(SynError(Expected("curly braces")))
    ensures item.Braced? ==> r == OptionsOf(item.inner, syn)
  {
    if item.Braced? then OptionsOf(item.inner, syn) else Err(SynError(Expected("curly braces")))
  }

  /**
   * `Contracts::parse`: the input as one bare option set; when that fails with
   * a parse error, a list of braced option sets, read from where the failed
   * parse stopped. The bare parse stops at the first item that is not a valid
   * pair: before it when the item is no option at all (the identifier is
   * refused without being consumed), and inside it otherwise, where no braced
   * group can start.
   */
  function ParseContracts(items: seq<Item>, syn: Syntax): (r: Result<seq<Options>, MacroError>)
    ensures r.Ok? ==> |r.value| > 0
    ensures OptionsOf(items, syn).Ok? ==> r == Ok([OptionsOf(items, syn).value])
    ensures OptionsOf(items, syn).Err? && OptionsOf(items, syn).error.Panic? ==> r == Err(OptionsOf(items, syn).error)
  {
    match EachInTurn(items, PairParser(syn))
    case Ok(pairs) =>
      (match OptionsFrom(pairs)
       case Ok(o) => Ok([o])
       case Err(e) => Err(e))
    case Err(_) =>
      var j := Failing(items, PairParser(syn)).value;
      if items[j].KeyValue? then Err(SynError(Expected("curly braces")))
      else EachInTurn(items[j..], (item: Item) => ParseBraced(item, syn))
  }

  /** An empty attribute is one option set without `name`, and panics. */
  lemma EmptyInput(syn: Syntax)
    ensures ParseContracts([], syn) == Err(Panic(UnwrapNone))
  {
    assert EachInTurn([], PairParser(syn)) == Ok([]);
  }

  /**
   * A non-empty list of braced groups gives the option sets of the groups,
   * in order, or the error of the first group that fails.
   */
  lemma {:induction false} BracedList(items: seq<Item>, syn: Syntax)
    requires |items| > 0 && forall i :: 0 <= i < |items| ==> items[i].Braced?
    ensures ParseContracts(items, syn).Ok? <==> forall i :: 0 <= i < |items| ==> OptionsOf(items[i].inner, syn).Ok?
    ensures ParseContracts(items, syn).Ok? ==> (|ParseContracts(items, syn).value| == |items|
      && forall i :: 0 <= i < |items| ==> ParseContracts(items, syn).value[i] == OptionsOf(items[i].inner, syn).value)
  {
    assert PairParser(syn)(items[0]).Err?;
    assert Failing(items, PairParser(syn)) == Some(0);
    assert items[0..] == items;
    var braced := (item: Item) => ParseBraced(item, syn);
    assert forall i :: 0 <= i < |items| ==> braced(items[i]) == OptionsOf(items[i].inner, syn);
  }

  /**
   * The input of the unit test `invalid_option`, `instantiate: InstantiateMsg,
   * asd: Asd`, does not reach the left-over check the test expects to panic:
   * `name` is missing, so the first `unwrap` panics.
   */
  lemma InvalidOptionTest(syn: Syntax)
    requires syn.isPath("InstantiateMsg") && syn.isPath("Asd")
    ensures OptionsOf([KeyValue("instantiate", ':', "InstantiateMsg"), KeyValue("asd", ':', "Asd")], syn) == Err(Panic(UnwrapNone))
  {
    var items := [KeyValue("instantiate", ':', "InstantiateMsg"), KeyValue("asd", ':', "Asd")];
    var pairs := [("instantiate", TypeValue("InstantiateMsg")), ("asd", TypeValue("Asd"))];
    assert PairParser(syn)(items[0]) == Ok(pairs[0]);
    assert PairParser(syn)(items[1]) == Ok(pairs[1]);
    var parsed := EachInTurn(items, PairParser(syn));
    assert parsed.Ok?;
    assert parsed.value == pairs;
    assert Last(pairs, "name") == None;
  }

  /** With `name` and `admin` added, the same input panics as the test expects, naming `asd`. */
  lemma InvalidOptionCompleted(syn: Syntax)
    requires syn.isPath("InstantiateMsg") && syn.isPath("Asd") && syn.isPath("admin")
    requires !syn.isPath("\"cw20\"") && syn.strValue("\"cw20\"") == Some("cw20")
    ensures OptionsOf([KeyValue("name", ':', "\"cw20\""), KeyValue("admin", ':', "admin"),
      KeyValue("instantiate", ':', "InstantiateMsg"), KeyValue("asd", ':', "Asd")], syn) == Err(UnknownOption("asd"))
  {
    var items := [KeyValue("name", ':', "\"cw20\""), KeyValue("admin", ':', "admin"),
      KeyValue("instantiate", ':', "InstantiateMsg"), KeyValue("asd", ':', "Asd")];
    var pairs := [("name", StrValue("cw20")), ("admin", TypeValue("admin")),
      ("instantiate", TypeValue("InstantiateMsg")), ("asd", TypeValue("Asd"))];
    assert ParsePair(items[0], syn) == Ok(pairs[0]);
    assert ParsePair(items[1], syn) == Ok(pairs[1]);
    assert ParsePair(items[2], syn) == Ok(pairs[2]);
    assert ParsePair(items[3], syn) == Ok(pairs[3]);
    EachInTurnOk(items, PairParser(syn), pairs);
    CompletedPairs(pairs);
  }

  /** The pairs of the completed test input: every mandatory option is given, and `asd` is left over. */
  lemma CompletedPairs(pairs: seq<(string, Value)>)
    requires pairs == [("name", StrValue("cw20")), ("admin", TypeValue("admin")),
      ("instantiate", TypeValue("InstantiateMsg")), ("asd", TypeValue("Asd"))]
    ensures OptionsFrom(pairs) == Err(UnknownOption("asd"))
  {
    CompletedMandatory(pairs);
    CompletedOptional(pairs);
    CompletedUnknown(pairs);
  }

  /** `name` is a string literal, `admin` is given and `instantiate` is a path. */
  lemma CompletedMandatory(pairs: seq<(string, Value)>)
    requires pairs == [("name", StrValue("cw20")), ("admin", TypeValue("admin")),
      ("instantiate", TypeValue("InstantiateMsg")), ("asd", TypeValue("Asd"))]
    ensures Mandatory(pairs).Ok?
  {
    LastAt(pairs, 0);
    LastAt(pairs, 1);
    LastAt(pairs, 2);
  }

  /** No optional message type is given. */
  lemma CompletedOptional(pairs: seq<(string, Value)>)
    requires pairs == [("name", StrValue("cw20")), ("admin", TypeValue("admin")),
      ("instantiate", TypeValue("InstantiateMsg")), ("asd", TypeValue("Asd"))]
    ensures OptionalTypes(pairs).Ok?
  {
    assert Last(pairs, "execute").None? && Last(pairs, "query").None? && Last(pairs, "migrate").None? && Last(pairs, "cw20_send").None?;
  }

  /** `asd` is the only key left over. */
  lemma CompletedUnknown(pairs: seq<(string, Value)>)
    requires pairs == [("name", StrValue("cw20")), ("admin", TypeValue("admin")),
      ("instantiate", TypeValue("InstantiateMsg")), ("asd", TypeValue("Asd"))]
    ensures |Unknown(pairs)| > 0 && Least(Unknown(pairs)) == "asd"
  {
    var unknown := Unknown(pairs);
    assert "asd" in unknown by {
      assert Last(pairs, "asd").Some?;
    }
    var least := Least(unknown);
    var i :| 0 <= i < |pairs| && pairs[i].0 == least;
    assert least == "asd";
  }

  /** The generated `enum Contracts`, with its derives and `serialize_all` rule. */
  datatype ItemEnum = ItemEnum(derives: seq<string>, serializeAll: string, ident: string, variants: seq<string>)

  const Derives: seq<string> := [
    "::wasm_deploy::strum_macros::Display", "::wasm_deploy::strum_macros::EnumIter",
    "::wasm_deploy::strum_macros::EnumString", "::std::clone::Clone", "::std::fmt::Debug"]

  /** The enum `generate_enum` starts from, with no variants. */
  const BaseEnum := ItemEnum(Derives, "snake_case", "Contracts", [])

  /** The panic of `Ident::new` on a string that is not an identifier. */
  const NotIdent := "is not a valid Ident"

  /**
   * Every option set's `name`, in UpperCamel form (`upperCamel` stands for
   * the case conversion), is an identifier (`isIdent` stands for the check
   * `Ident::new` makes).
   */
  predicate AllIdents(contracts: seq<Options>, upperCamel: string -> string, isIdent: string -> bool) {
    forall i :: 0 <= i < |contracts| ==> isIdent(upperCamel(contracts[i].name))
  }

  /**
   * `generate_enum`: the base enum with its variants replaced by one unit
   * variant per option set, in order, named by the UpperCamel form of the
   * set's `name`; `Ident::new` panics on a form that is not an identifier.
   */
  function GenerateEnum(contracts: seq<Options>, upperCamel: string -> string, isIdent: string -> bool): (r: Result<ItemEnum, MacroError>)
    ensures r.Ok? <==> AllIdents(contracts, upperCamel, isIdent)
    ensures r.Err? ==> r.error == Panic(NotIdent)
    ensures r.Ok? ==> r.value.derives == Derives && r.value.serializeAll == "snake_case" && r.value.ident == "Contracts"
    ensures r.Ok? ==> |r.value.variants| == |contracts|
    ensures r.Ok? ==> forall i :: 0 <= i < |contracts| ==> r.value.variants[i] == upperCamel(contracts[i].name)
  {
    if !AllIdents(contracts, upperCamel, isIdent) then Err(Panic(NotIdent))
    else Ok(BaseEnum.(variants := seq(|contracts|, i requires 0 <= i < |contracts| => upperCamel(contracts[i].name))))
  }

  /**
   * `generate_match`: one arm `Contracts::<UpperCamel name>` per option set,
   * in order; `Ident::new` panics on a form that is not an identifier.
   */
  function GenerateMatch<E>(contracts: seq<Options>, upperCamel: string -> string, isIdent: string -> bool, f: Options -> E): (r: Result<DeriveContracts.Match<E>, MacroError>)
    ensures r.Ok? <==> AllIdents(contracts, upperCamel, isIdent)
    ensures r.Err? ==> r.error == Panic(NotIdent)
    ensures r.Ok? ==> r.value.scrutinee == "&self" && |r.value.arms| == |contracts|
    ensures r.Ok? ==> forall i :: 0 <= i < |contracts| ==> r.value.arms[i] == DeriveContracts.Arm("Contracts", upperCamel(contracts[i].name), f(contracts[i]))
  {
    if !AllIdents(contracts, upperCamel, isIdent) then Err(Panic(NotIdent))
    else Ok(DeriveContracts.Match("&self", seq(|contracts|, i requires 0 <= i < |contracts| =>
      DeriveContracts.Arm("Contracts", upperCamel(contracts[i].name), f(contracts[i])))))
  }

  /**
   * The enum and a match over the same option sets are generated together or
   * panic together, and every variant of the generated enum has an arm in
   * the generated `match`: the matches are exhaustive.
   */
  lemma MatchCoversEnum<E>(contracts: seq<Options>, upperCamel: string -> string, isIdent: string -> bool, f: Options -> E, i: nat)
    ensures GenerateEnum(contracts, upperCamel, isIdent).Ok? <==> GenerateMatch(contracts, upperCamel, isIdent, f).Ok?
    ensures GenerateEnum(contracts, upperCamel, isIdent).Ok? && i < |GenerateEnum(contracts, upperCamel, isIdent).value.variants| ==>
      DeriveContracts.Dispatch(GenerateMatch(contracts, upperCamel, isIdent, f).value, "Contracts", GenerateEnum(contracts, upperCamel, isIdent).value.variants[i]).Some?
  {
    var e := GenerateEnum(contracts, upperCamel, isIdent);
    if e.Ok? && i < |e.value.variants| {
      var m := GenerateMatch(contracts, upperCamel, isIdent, f).value;
      assert m.arms[i].enumIdent == "Contracts" && m.arms[i].variant == e.value.variants[i];
    }
  }
}
