/**
 * The `#[derive]` macro of wasm-deploy-derive/src/contracts.rs: every variant
 * of the user's contract enum carries a `#[contract(key = value, ..)]`
 * attribute; the options are collected per variant and one `match` arm per
 * variant is generated for each method of `ContractInteractive`. Expressions
 * and paths stay uninterpreted token text.
 */
module DeriveContracts {
  import opened Wrappers
  import opened Tokens
  import opened OrderedMap
  import opened Seqs

  /** `Value`: an option's value, parsed as a path or as an expression according to its key. */
  datatype Value = PathValue(path: string) | ExprValue(expr: string)

  /** The keys whose values are expressions, and those whose values are paths. */
  const ExprKeys: seq<string> := ["admin", "rename", "bin_name", "path"]
  const PathKeys: seq<string> := ["instantiate", "execute", "query", "migrate", "cw20_send"]

  /** The error for any other key. */
  const UnknownKey := "expected one of: rename, admin, instantiate, execute, query, migrate, cw20_send"

  /** `Pair::parse`: an identifier, `=`, and a value of the kind its key calls for. */
  function ParsePair(item: Item, syn: Syntax): (r: Result<(string, Value), MacroError>)
    ensures r.Ok? <==> (item.KeyValue? && item.sep == '='
      && ((item.key in ExprKeys && syn.isExpr(item.value)) || (item.key in PathKeys && syn.isPath(item.value))))
    ensures r.Ok? ==> r.value.0 == item.key
    ensures r.Ok? ==> (r.value.1.ExprValue? <==> item.key in ExprKeys) && ValueText(r.value.1) == item.value
    ensures item.KeyValue? && item.sep == '=' && item.key !in ExprKeys && item.key !in PathKeys ==> r == Err(SynError(UnknownKey))
    ensures r.Err? ==> r.error.SynError?
  {
    if !item.KeyValue? then Err(SynError(Expected("identifier")))
    else if item.sep != '=' then Err(SynError(Expected("`=`")))
    else if item.key in ExprKeys then
      if syn.isExpr(item.value) then Ok((item.key, ExprValue(item.value))) else Err(SynError(Expected("expression")))
    else if item.key in PathKeys then
      if syn.isPath(item.value) then Ok((item.key, PathValue(item.value))) else Err(SynError(Expected("path")))
    else Err(SynError(UnknownKey))
  }

  /** `Pair::parse` as the parser `parse_terminated` applies to each item. */
  function PairParser(syn: Syntax): Item -> Result<(string, Value), MacroError> {
    (item: Item) => ParsePair(item, syn)
  }

  /** The options of one variant; `None` where an optional key was not given. */
  datatype Options = Options(
    rename: Option<string>,
    binName: Option<string>,
    path: Option<string>,
    admin: string,
    instantiate: string,
    execute: Option<string>,
    query: Option<string>,
    migrate: Option<string>,
    cw20Send: Option<string>)

  /** `unwrap_expr` and `unwrap_type`: the value of the expected kind, or a panic. */
  function UnwrapExpr(v: Value): Result<string, MacroError> {
    if v.ExprValue? then Ok(v.expr) else Err(Panic("expected an expression"))
  }

  function UnwrapType(v: Value): Result<string, MacroError> {
    if v.PathValue? then Ok(v.path) else Err(Panic("expected a type"))
  }

  /** The expression or path a pair's value consists of, whichever it is. */
  function ValueText(v: Value): string {
    if v.ExprValue? then v.expr else v.path
  }

  /** The value the last pair with `key` gives, as its text. */
  function LastText(pairs: seq<(string, Value)>, key: string): Option<string> {
    match Last(pairs, key)
    case Some(v) => Some(ValueText(v))
    case None => None
  }

  /**
   * What `Options::parse` yields, stated on the parsed pairs: a parse error of
   * any pair, or else the options the pairs give.
   */
  function OptionsOf(items: seq<Item>, syn: Syntax): Result<Options, MacroError> {
    match EachInTurn(items, PairParser(syn))
    case Err(e) => Err(e)
    case Ok(pairs) => OptionsFrom(pairs)
  }

  /**
   * The options parsed pairs give: a panic when `admin` or `instantiate` is
   * missing; else each option is the value of the last pair with its key.
   */
  function OptionsFrom(pairs: seq<(string, Value)>): (r: Result<Options, MacroError>)
    ensures r.Ok? <==> Last(pairs, "admin").Some? && Last(pairs, "instantiate").Some?
    ensures r.Err? ==> r.error == Panic(UnwrapNone)
  {
    if Last(pairs, "admin").None? || Last(pairs, "instantiate").None? then Err(Panic(UnwrapNone))
    else Ok(Options(
      LastText(pairs, "rename"), LastText(pairs, "bin_name"), LastText(pairs, "path"),
      LastText(pairs, "admin").value, LastText(pairs, "instantiate").value,
      LastText(pairs, "execute"), LastText(pairs, "query"), LastText(pairs, "migrate"), LastText(pairs, "cw20_send")))
  }

  /** The panic when an option outside the known keys is left over. */
  function UnknownOption(key: string): MacroError {
    Panic("unknown generate_api option: " + key)
  }

  /**
   * `Options::parse`: the pairs are collected into a `BTreeMap`, each known key
   * is removed in turn (a missing `admin` or `instantiate` panics), and a key
   * left over panics. Since a pair only parses with a known key and a value of
   * that key's kind, neither the kind checks nor the left-over check can fire.
   */
  method ParseOptions(items: seq<Item>, syn: Syntax) returns (r: Result<Options, MacroError>)
    ensures r == OptionsOf(items, syn)
  {
    var parsed := EachInTurn(items, PairParser(syn));
    if parsed.Err? {
      return Err(parsed.error);
    }
    var pairs := parsed.value;
    var table := Collect(pairs);
    assert Agrees(table, pairs, 0);
    KindsFollowKeys(items, syn, pairs);

    DrainKeys();
    var rename, binName, path, admin, instantiate, execute, query, migrate, cw20Send;
    rename, table := TakeExpr(table, 0, pairs);  // "rename"
    binName, table := TakeExpr(table, 1, pairs);  // "bin_name"
    path, table := TakeExpr(table, 2, pairs);  // "path"
    admin, table := TakeExpr(table, 3, pairs);  // "admin"
    if admin.None? {
      return Err(Panic(UnwrapNone));
    }
    instantiate, table := TakeType(table, 4, pairs);  // "instantiate"
    if instantiate.None? {
      return Err(Panic(UnwrapNone));
    }
    execute, table := TakeType(table, 5, pairs);  // "execute"
    query, table := TakeType(table, 6, pairs);  // "query"
    migrate, table := TakeType(table, 7, pairs);  // "migrate"
    cw20Send, table := TakeType(table, 8, pairs);  // "cw20_send"

    // The left-over panic cannot fire: every key parsed is one of those removed above.
    NothingLeft(table, pairs);
    assert |table| == 0;
    r := Ok(Options(rename, binName, path, admin.value, instantiate.value, execute, query, migrate, cw20Send));
  }

  /** The pairs `parse_terminated` yields are `Kinded`. */
  lemma KindsFollowKeys(items: seq<Item>, syn: Syntax, pairs: seq<(string, Value)>)
    requires EachInTurn(items, PairParser(syn)) == Ok(pairs)
    ensures Kinded(pairs)
  {
    forall k | Last(pairs, k).Some? ensures 0 <= KeyIndex(k) && (KeyIndex(k) < 4 <==> Last(pairs, k).value.ExprValue?) {
      LastParsed(items, syn, pairs, k);
    }
  }

  /** The keys `Options::parse` removes, in the order it removes them: first the expression keys, then the path keys. */
  const Drain: seq<string> := ["rename", "bin_name", "path", "admin", "instantiate", "execute", "query", "migrate", "cw20_send"]

  /** The place of a key in `Drain`, or -1 for a key it does not hold. */
  function KeyIndex(k: string): (r: int)
    ensures -1 <= r < |Drain|
    ensures r >= 0 ==> Drain[r] == k
    ensures r == -1 <==> k !in ExprKeys && k !in PathKeys
    ensures 0 <= r < 4 <==> k in ExprKeys
  {
    if k == "rename" then 0
    else if k == "bin_name" then 1
    else if k == "path" then 2
    else if k == "admin" then 3
    else if k == "instantiate" then 4
    else if k == "execute" then 5
    else if k == "query" then 6
    else if k == "migrate" then 7
    else if k == "cw20_send" then 8
    else -1
  }

  /** A table agrees with the collected pairs on every key not yet removed, and holds no removed key. */
  ghost predicate Agrees(table: seq<Entry<Value>>, pairs: seq<(string, Value)>, removed: nat) {
    forall k :: Get(table, k) == if 0 <= KeyIndex(k) < removed then None else Last(pairs, k)
  }

  /** The pairs parsed: every key is known, and every value is of the kind its key calls for. */
  ghost predicate Kinded(pairs: seq<(string, Value)>) {
    forall k :: Last(pairs, k).Some? ==> 0 <= KeyIndex(k) && (KeyIndex(k) < 4 <==> Last(pairs, k).value.ExprValue?)
  }

  /** Once every known key is removed from the table of `Kinded` pairs, nothing is left. */
  lemma NothingLeft(table: seq<Entry<Value>>, pairs: seq<(string, Value)>)
    requires Ordered(table) && Agrees(table, pairs, |Drain|) && Kinded(pairs)
    ensures |table| == 0
  {
    if |table| > 0 {
      GetAt(table, 0);
    }
  }

  /** Removing the `removed`-th key of `Drain` from a table that agrees so far. */
  lemma Removed(table: seq<Entry<Value>>, pairs: seq<(string, Value)>, removed: nat)
    requires removed < |Drain| && Ordered(table) && Agrees(table, pairs, removed)
    ensures Remove(table, Drain[removed]).0 == Last(pairs, Drain[removed])
    ensures Agrees(Remove(table, Drain[removed]).1, pairs, removed + 1)
  {
    var key := Drain[removed];
    DrainIndexed(removed);
    var t := Remove(table, key);
    forall k ensures Get(t.1, k) == if 0 <= KeyIndex(k) < removed + 1 then None else Last(pairs, k) {
      if k != key {
        assert Get(t.1, k) == Get(table, k);
        assert KeyIndex(k) != removed;
      }
    }
  }

  /** The keys of `Drain`, one by one. */
  lemma DrainKeys()
    ensures Drain[0] == "rename" && Drain[1] == "bin_name" && Drain[2] == "path" && Drain[3] == "admin"
    ensures Drain[4] == "instantiate" && Drain[5] == "execute" && Drain[6] == "query" && Drain[7] == "migrate"
    ensures Drain[8] == "cw20_send"
  {
  }

  /** Each key of `Drain` sits at its own place. */
  lemma DrainIndexed(i: nat)
    requires i < |Drain|
    ensures KeyIndex(Drain[i]) == i
  {
    assert Drain == ["rename", "bin_name", "path", "admin", "instantiate", "execute", "query", "migrate", "cw20_send"];
  }

  /** `map.remove(&key).map(|x| x.unwrap_expr())`: the expression of the last pair with that key, if any. */
  method TakeExpr(table: seq<Entry<Value>>, removed: nat, ghost pairs: seq<(string, Value)>)
    returns (taken: Option<string>, rest: seq<Entry<Value>>)
    requires removed < 4
    requires Ordered(table) && Agrees(table, pairs, removed) && Kinded(pairs)
    ensures taken == LastText(pairs, Drain[removed])
    ensures Ordered(rest) && Agrees(rest, pairs, removed + 1)
  {
    var t := Remove(table, Drain[removed]);
    Removed(table, pairs, removed);
    rest := t.1;
    taken := if t.0.Some? then Some(t.0.value.expr) else None;
  }

  /** `map.remove(&key).map(|ty| ty.unwrap_type())`: the path of the last pair with that key, if any. */
  method TakeType(table: seq<Entry<Value>>, removed: nat, ghost pairs: seq<(string, Value)>)
    returns (taken: Option<string>, rest: seq<Entry<Value>>)
    requires 4 <= removed < |Drain|
    requires Ordered(table) && Agrees(table, pairs, removed) && Kinded(pairs)
    ensures taken == LastText(pairs, Drain[removed])
    ensures Ordered(rest) && Agrees(rest, pairs, removed + 1)
  {
    var t := Remove(table, Drain[removed]);
    Removed(table, pairs, removed);
    rest := t.1;
    taken := if t.0.Some? then Some(t.0.value.path) else None;
  }

  /** Every parsed pair has a known key, and one of the expression keys carries an expression. */
  lemma LastParsed(items: seq<Item>, syn: Syntax, pairs: seq<(string, Value)>, k: string)
    requires EachInTurn(items, PairParser(syn)) == Ok(pairs)
    requires Last(pairs, k).Some?
    ensures 0 <= KeyIndex(k) && (KeyIndex(k) < 4 <==> Last(pairs, k).value.ExprValue?)
  {
    var i := LastIndex(pairs, k);
    assert PairParser(syn)(items[i]) == Ok(pairs[i]);
  }

  /** Where the last pair with a key sits. */
  lemma {:induction false} LastIndex<V>(pairs: seq<(string, V)>, k: string) returns (i: nat)
    requires Last(pairs, k).Some?
    ensures i < |pairs| && pairs[i].0 == k && Last(pairs, k) == Some(pairs[i].1)
    decreases |pairs|
  {
    if pairs[|pairs| - 1].0 == k {
      i := |pairs| - 1;
    } else {
      i := LastIndex(pairs[..|pairs| - 1], k);
    }
  }

  /** The option a key sets, as its text; `None` for a key that is not an option. */
  function Field(o: Options, key: string): Option<string> {
    match key
    case "rename" => o.rename
    case "bin_name" => o.binName
    case "path" => o.path
    case "admin" => Some(o.admin)
    case "instantiate" => Some(o.instantiate)
    case "execute" => o.execute
    case "query" => o.query
    case "migrate" => o.migrate
    case "cw20_send" => o.cw20Send
    case _ => None
  }

  /** Each option is the text of the last pair with its key. */
  lemma FieldOf(pairs: seq<(string, Value)>, k: string)
    requires OptionsFrom(pairs).Ok?
    ensures Field(OptionsFrom(pairs).value, k) == if KeyIndex(k) >= 0 then LastText(pairs, k) else None
  {
  }

  /** The parsed pairs of a list one item longer: the pairs before, and that item's. */
  lemma {:induction false} ParsedSnoc(items: seq<Item>, item: Item, syn: Syntax)
    requires EachInTurn(items, PairParser(syn)).Ok? && ParsePair(item, syn).Ok?
    ensures EachInTurn(items + [item], PairParser(syn)) == Ok(EachInTurn(items, PairParser(syn)).value + [ParsePair(item, syn).value])
  {
    var all := items + [item];
    assert forall i :: 0 <= i < |items| ==> all[i] == items[i];
    assert PairParser(syn)(item) == ParsePair(item, syn);
    var longer := EachInTurn(all, PairParser(syn));
    var pairs := EachInTurn(items, PairParser(syn)).value;
    forall i | 0 <= i < |items| ensures longer.value[i] == pairs[i] {
      assert PairParser(syn)(all[i]) == Ok(longer.value[i]);
      assert PairParser(syn)(items[i]) == Ok(pairs[i]);
    }
    assert PairParser(syn)(all[|items|]) == Ok(longer.value[|items|]);
    assert longer.value == pairs + [ParsePair(item, syn).value];
  }

  /**
   * A repeated key keeps its last value: one more valid pair after a valid
   * option list sets its own option and leaves every other one as it was.
   */
  lemma {:induction false} LaterPairWins(items: seq<Item>, item: Item, syn: Syntax)
    requires OptionsOf(items, syn).Ok? && ParsePair(item, syn).Ok?
    ensures OptionsOf(items + [item], syn).Ok?
    ensures Field(OptionsOf(items + [item], syn).value, item.key) == Some(item.value)
    ensures forall k :: k != item.key ==> Field(OptionsOf(items + [item], syn).value, k) == Field(OptionsOf(items, syn).value, k)
  {
    var pairs := EachInTurn(items, PairParser(syn)).value;
    var p := ParsePair(item, syn).value;
    ParsedSnoc(items, item, syn);
    var longer := pairs + [p];
    forall k ensures Last(longer, k) == if k == p.0 then Some(p.1) else Last(pairs, k) {
      LastSnoc(pairs, p, k);
    }
    assert OptionsFrom(longer).Ok?;
    FieldOf(longer, item.key);
    forall k | k != item.key
      ensures Field(OptionsFrom(longer).value, k) == Field(OptionsFrom(pairs).value, k)
    {
      FieldOf(longer, k);
      FieldOf(pairs, k);
    }
  }

  /** Some item is an option with key `k`. */
  predicate Given(items: seq<Item>, k: string) {
    exists i :: 0 <= i < |items| && items[i].KeyValue? && items[i].key == k
  }

  /** With every pair valid, a key has a last pair exactly when some item gives it. */
  lemma KeyGiven(items: seq<Item>, syn: Syntax, k: string)
    requires EachInTurn(items, PairParser(syn)).Ok?
    ensures Last(EachInTurn(items, PairParser(syn)).value, k).Some? <==> Given(items, k)
  {
    var pairs := EachInTurn(items, PairParser(syn)).value;
    forall i | 0 <= i < |items| ensures items[i].KeyValue? && pairs[i].0 == items[i].key {
      assert PairParser(syn)(items[i]) == Ok(pairs[i]);
    }
  }

  /** With every pair valid, the options parse exactly when both `admin` and `instantiate` are given. */
  lemma MandatoryKeys(items: seq<Item>, syn: Syntax)
    requires EachInTurn(items, PairParser(syn)).Ok?
    ensures OptionsOf(items, syn).Ok? <==> Given(items, "admin") && Given(items, "instantiate")
  {
    var pairs := EachInTurn(items, PairParser(syn)).value;
    assert OptionsOf(items, syn) == OptionsFrom(pairs);
    KeyGiven(items, syn, "admin");
    KeyGiven(items, syn, "instantiate");
  }

  /** An attribute `#[path(args)]` on an enum variant. */
  datatype Attr = Attr(path: string, args: seq<Item>)

  /** A variant of the user's contract enum, with its attributes. */
  datatype Variant = Variant(ident: string, attrs: seq<Attr>)

  /** An expression in generated code: option text as written, or a string literal with its value. */
  datatype Expr = Code(text: string) | StrLit(value: string)

  /** `Contract`: the options of one variant, with its name resolved. */
  datatype Contract = Contract(
    name: Expr,
    binName: Option<string>,
    path: Option<string>,
    variantName: string,
    admin: string,
    instantiate: string,
    execute: Option<string>,
    query: Option<string>,
    migrate: Option<string>,
    cw20Send: Option<string>)

  const MissingAttribute := "Missing `#[contract(..)]` attribute"

  predicate IsContractAttr(a: Attr) {
    a.path == "contract"
  }

  /**
   * The contract one variant describes: its first `#[contract(..)]` attribute
   * (none panics), whose arguments must parse as options (a parse error
   * panics through `unwrap`); the name is `rename`, or else the kebab-case
   * form of the variant identifier as a string literal.
   */
  function ContractOf(v: Variant, syn: Syntax, kebab: string -> string): (r: Result<Contract, MacroError>)
    ensures r.Err? ==> r.error.Panic?
    ensures r == Err(Panic(MissingAttribute)) <==> forall i :: 0 <= i < |v.attrs| ==> v.attrs[i].path != "contract"
    ensures r.Ok? ==> exists i :: (0 <= i < |v.attrs| && v.attrs[i].path == "contract"
      && (forall j :: 0 <= j < i ==> v.attrs[j].path != "contract")
      && OptionsOf(v.attrs[i].args, syn).Ok?
      && r.value.variantName == v.ident
      && r.value.name == (if OptionsOf(v.attrs[i].args, syn).value.rename.Some? then Code(OptionsOf(v.attrs[i].args, syn).value.rename.value)
                          else StrLit(kebab(v.ident))))
  {
    match Position(v.attrs, IsContractAttr)
    case None => Err(Panic(MissingAttribute))
    case Some(i) =>
      match OptionsOf(v.attrs[i].args, syn)
      case Err(SynError(_)) => Err(Panic(UnwrapErr))
      case Err(e) => Err(e)
      case Ok(o) =>
        var name := if o.rename.Some? then Code(o.rename.value) else StrLit(kebab(v.ident));
        Ok(Contract(name, o.binName, o.path, v.ident, o.admin, o.instantiate, o.execute, o.query, o.migrate, o.cw20Send))
  }

  /** `get_contracts`: one contract per variant, in order; the first variant that panics ends the expansion. */
  function GetContracts(variants: seq<Variant>, syn: Syntax, kebab: string -> string): (r: Result<seq<Contract>, MacroError>)
    ensures r.Ok? <==> forall i :: 0 <= i < |variants| ==> ContractOf(variants[i], syn, kebab).Ok?
    ensures r.Ok? ==> (|r.value| == |variants|
      && forall i :: 0 <= i < |variants| ==> r.value[i] == ContractOf(variants[i], syn, kebab).value)
    ensures r.Err? ==> r.error.Panic?
  {
    var convert := (v: Variant) => ContractOf(v, syn, kebab);
    var r := EachInTurn(variants, convert);
    assert r.Ok? <==> forall i :: 0 <= i < |variants| ==> convert(variants[i]).Ok?;
    r
  }

  /** The variant identifiers of the contracts all differ, as those of an enum do. */
  predicate DistinctVariants(contracts: seq<Contract>) {
    forall i, j :: 0 <= i < j < |contracts| ==> contracts[i].variantName != contracts[j].variantName
  }

  /** One arm `Enum::Variant => { body }` of a generated `match`. */
  datatype Arm<E> = Arm(enumIdent: string, variant: string, body: E)

  /** A generated `match &self { .. }`. */
  datatype Match<E> = Match(scrutinee: string, arms: seq<Arm<E>>)

  /** `generate_match`: an arm per contract, in order, whose body is built from that contract. */
  function GenerateMatch<E>(enumIdent: string, contracts: seq<Contract>, f: Contract -> E): (r: Match<E>)
    ensures r.scrutinee == "&self" && |r.arms| == |contracts|
    ensures forall i :: 0 <= i < |contracts| ==> r.arms[i] == Arm(enumIdent, contracts[i].variantName, f(contracts[i]))
  {
    Match("&self", seq(|contracts|, i requires 0 <= i < |contracts| => Arm(enumIdent, contracts[i].variantName, f(contracts[i]))))
  }

  /** What a `match` on `enumIdent::variant` runs: the body of the first arm with that pattern. */
  function Dispatch<E>(m: Match<E>, enumIdent: string, variant: string): (r: Option<E>)
    ensures r.Some? <==> exists i :: 0 <= i < |m.arms| && m.arms[i].enumIdent == enumIdent && m.arms[i].variant == variant
  {
    match Position(m.arms, (a: Arm<E>) => a.enumIdent == enumIdent && a.variant == variant)
    case Some(i) => Some(m.arms[i].body)
    case None => None
  }

  /** A generated `match` on each contract's own variant runs the body built from that contract, and no other. */
  lemma {:induction false} DispatchGenerated<E>(enumIdent: string, contracts: seq<Contract>, f: Contract -> E, i: nat)
    requires DistinctVariants(contracts) && i < |contracts|
    ensures Dispatch(GenerateMatch(enumIdent, contracts, f), enumIdent, contracts[i].variantName) == Some(f(contracts[i]))
  {
    var m := GenerateMatch(enumIdent, contracts, f);
    var hit := (a: Arm<E>) => a.enumIdent == enumIdent && a.variant == contracts[i].variantName;
    assert hit(m.arms[i]);
    var j := Position(m.arms, hit).value;
    assert j == i;
  }

  /** The expressions the generated methods are made of. */
  datatype Body =
    | ToString(expr: Expr)  // `#expr.to_string()`
    | SelfName  // `self.name()`
    | Into(text: string)  // `#path.into()`
    | ContractsDir  // `PathBuf::from(format!("contracts/{}", self.name()))`
    | ParseToObj(path: string)  // `Ok(Box::new(<#path as InteractiveParseObj>::parse_to_obj()?))`
    | Bail(message: string)  // `anyhow::bail!(message)`

  /** The generated `impl ContractInteractive for #enum_ident`, one `match` per method. */
  datatype Impl = Impl(
    enumIdent: string,
    name: Match<Body>,
    binName: Match<Body>,
    path: Match<Body>,
    admin: Match<Body>,
    instantiate: Match<Body>,
    execute: Match<Body>,
    query: Match<Body>,
    migrate: Match<Body>,
    cw20Send: Match<Body>)

  const ExecuteMissing := "The ExecuteMsg has not yet been implemented"
  const QueryMissing := "The QueryMsg has not yet been implemented"
  const MigrateMissing := "The MigrateMsg has not yet been implemented"
  const Cw20Missing := "The Cw20 Receive message has not yet been implemented"

  /** The message body for a message type that may not be given: parse it, or bail with `missing`. */
  function MsgBody(ty: Option<string>, missing: string): Body {
    if ty.Some? then ParseToObj(ty.value) else Bail(missing)
  }

  /** The bodies `generate_impl` builds from a contract, one per method. */
  function NameBody(c: Contract): Body {
    ToString(c.name)
  }

  function BinNameBody(c: Contract): Body {
    if c.binName.Some? then ToString(Code(c.binName.value)) else SelfName
  }

  function PathBody(c: Contract): Body {
    if c.path.Some? then Into(c.path.value) else ContractsDir
  }

  function AdminBody(c: Contract): Body {
    ToString(Code(c.admin))
  }

  function InstantiateBody(c: Contract): Body {
    ParseToObj(c.instantiate)
  }

  function ExecuteBody(c: Contract): Body {
    MsgBody(c.execute, ExecuteMissing)
  }

  function QueryBody(c: Contract): Body {
    MsgBody(c.query, QueryMissing)
  }

  function MigrateBody(c: Contract): Body {
    MsgBody(c.migrate, MigrateMissing)
  }

  function Cw20SendBody(c: Contract): Body {
    MsgBody(c.cw20Send, Cw20Missing)
  }

  /** `generate_impl`: a `match` over the contracts for each method of `ContractInteractive`. */
  function GenerateImpl(enumIdent: string, contracts: seq<Contract>): Impl {
    Impl(
      enumIdent,
      GenerateMatch(enumIdent, contracts, NameBody),
      GenerateMatch(enumIdent, contracts, BinNameBody),
      GenerateMatch(enumIdent, contracts, PathBody),
      GenerateMatch(enumIdent, contracts, AdminBody),
      GenerateMatch(enumIdent, contracts, InstantiateBody),
      GenerateMatch(enumIdent, contracts, ExecuteBody),
      GenerateMatch(enumIdent, contracts, QueryBody),
      GenerateMatch(enumIdent, contracts, MigrateBody),
      GenerateMatch(enumIdent, contracts, Cw20SendBody))
  }

  /** What a generated method yields: a string or path, a message of the given type, or a bail with a message. */
  datatype Outcome = Text(text: string) | Msg(msgType: string) | Bailed(message: string)

  /**
   * Running a body, where `eval` gives the string an option's expression
   * evaluates to and `selfName` is what `self.name()` returns.
   */
  function Run(b: Body, selfName: string, eval: string -> string): Outcome {
    match b
    case ToString(Code(t)) => Text(eval(t))
    case ToString(StrLit(v)) => Text(v)
    case SelfName => Text(selfName)
    case Into(t) => Text(eval(t))
    case ContractsDir => Text("contracts/" + selfName)
    case ParseToObj(p) => Msg(p)
    case Bail(m) => Bailed(m)
  }

  /** Calling one generated method on a variant: the body its `match` dispatches to, run. */
  function Call(m: Match<Body>, enumIdent: string, variant: string, selfName: string, eval: string -> string): Option<Outcome> {
    match Dispatch(m, enumIdent, variant)
    case Some(b) => Some(Run(b, selfName, eval))
    case None => None
  }

  /** The string a contract's `name()` evaluates to. */
  function NameOf(c: Contract, eval: string -> string): string {
    if c.name.Code? then eval(c.name.text) else c.name.value
  }

  /** Calling a generated method on a contract's own variant runs the body built from that contract. */
  lemma CallGenerated(enumIdent: string, contracts: seq<Contract>, f: Contract -> Body, i: nat, selfName: string, eval: string -> string)
    requires DistinctVariants(contracts) && i < |contracts|
    ensures Call(GenerateMatch(enumIdent, contracts, f), enumIdent, contracts[i].variantName, selfName, eval) == Some(Run(f(contracts[i]), selfName, eval))
  {
    DispatchGenerated(enumIdent, contracts, f, i);
  }

  /**
   * On the variant of each contract, `name()` is its name, `bin_name()`
   * defaults to `name()` and `path()` to `contracts/<name>`, and `admin()` is
   * its admin.
   */
  lemma {:induction false} GeneratedStrings(enumIdent: string, contracts: seq<Contract>, i: nat, eval: string -> string)
    requires DistinctVariants(contracts) && i < |contracts|
    ensures var r, c, n := GenerateImpl(enumIdent, contracts), contracts[i], NameOf(contracts[i], eval);
      && Call(r.name, enumIdent, c.variantName, n, eval) == Some(Text(n))
      && Call(r.binName, enumIdent, c.variantName, n, eval) == Some(Text(if c.binName.Some? then eval(c.binName.value) else n))
      && Call(r.path, enumIdent, c.variantName, n, eval) == Some(Text(if c.path.Some? then eval(c.path.value) else "contracts/" + n))
      && Call(r.admin, enumIdent, c.variantName, n, eval) == Some(Text(eval(c.admin)))
  {
    var n, r := NameOf(contracts[i], eval), GenerateImpl(enumIdent, contracts);
    assert r.name == GenerateMatch(enumIdent, contracts, NameBody);
    assert r.binName == GenerateMatch(enumIdent, contracts, BinNameBody);
    assert r.path == GenerateMatch(enumIdent, contracts, PathBody);
    assert r.admin == GenerateMatch(enumIdent, contracts, AdminBody);
    CallGenerated(enumIdent, contracts, NameBody, i, n, eval);
    CallGenerated(enumIdent, contracts, BinNameBody, i, n, eval);
    CallGenerated(enumIdent, contracts, PathBody, i, n, eval);
    RunPathBody(contracts[i], n, eval);
    CallGenerated(enumIdent, contracts, AdminBody, i, n, eval);
  }

  lemma RunPathBody(c: Contract, selfName: string, eval: string -> string)
    ensures Run(PathBody(c), selfName, eval) == Text(if c.path.Some? then eval(c.path.value) else "contracts/" + selfName)
  {
  }

  lemma RunInstantiateBody(c: Contract, selfName: string, eval: string -> string)
    ensures Run(InstantiateBody(c), selfName, eval) == Msg(c.instantiate)
  {
  }

  lemma RunMsgBody(ty: Option<string>, missing: string, selfName: string, eval: string -> string)
    ensures Run(MsgBody(ty, missing), selfName, eval) == if ty.Some? then Msg(ty.value) else Bailed(missing)
  {
  }

  /** A method whose body parses an optional message type: on each variant, that contract's type, or the bail. */
  lemma CallMsgGenerated(enumIdent: string, contracts: seq<Contract>, f: Contract -> Body, ty: Contract -> Option<string>,
                         missing: string, i: nat, selfName: string, eval: string -> string)
    requires DistinctVariants(contracts) && i < |contracts|
    requires forall c :: f(c) == MsgBody(ty(c), missing)
    ensures Call(GenerateMatch(enumIdent, contracts, f), enumIdent, contracts[i].variantName, selfName, eval)
         == Some(if ty(contracts[i]).Some? then Msg(ty(contracts[i]).value) else Bailed(missing))
  {
    CallGenerated(enumIdent, contracts, f, i, selfName, eval);
    RunMsgBody(ty(contracts[i]), missing, selfName, eval);
  }

  /**
   * On the variant of each contract, `instantiate()` parses its instantiate
   * message, and each of the other message methods parses its message type
   * when one is given, or else bails with that method's fixed message.
   */
  lemma {:induction false} GeneratedMessages(enumIdent: string, contracts: seq<Contract>, i: nat, n: string, eval: string -> string)
    requires DistinctVariants(contracts) && i < |contracts|
    ensures var r, c := GenerateImpl(enumIdent, contracts), contracts[i];
      && Call(r.instantiate, enumIdent, c.variantName, n, eval) == Some(Msg(c.instantiate))
      && Call(r.execute, enumIdent, c.variantName, n, eval) == Some(if c.execute.Some? then Msg(c.execute.value) else Bailed(ExecuteMissing))
      && Call(r.query, enumIdent, c.variantName, n, eval) == Some(if c.query.Some? then Msg(c.query.value) else Bailed(QueryMissing))
      && Call(r.migrate, enumIdent, c.variantName, n, eval) == Some(if c.migrate.Some? then Msg(c.migrate.value) else Bailed(MigrateMissing))
      && Call(r.cw20Send, enumIdent, c.variantName, n, eval) == Some(if c.cw20Send.Some? then Msg(c.cw20Send.value) else Bailed(Cw20Missing))
  {
    var c, r := contracts[i], GenerateImpl(enumIdent, contracts);
    CallGenerated(enumIdent, contracts, InstantiateBody, i, n, eval);
    RunInstantiateBody(c, n, eval);
    CallMsgGenerated(enumIdent, contracts, ExecuteBody, (c: Contract) => c.execute, ExecuteMissing, i, n, eval);
    CallMsgGenerated(enumIdent, contracts, QueryBody, (c: Contract) => c.query, QueryMissing, i, n, eval);
    CallMsgGenerated(enumIdent, contracts, MigrateBody, (c: Contract) => c.migrate, MigrateMissing, i, n, eval);
    CallMsgGenerated(enumIdent, contracts, Cw20SendBody, (c: Contract) => c.cw20Send, Cw20Missing, i, n, eval);
  }
}
