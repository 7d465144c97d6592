/**
 * The attribute input of the derive macros, at the level their parsers look
 * at it: a comma-separated list of items, each an option `key <sep> value`, a
 * braced group of such items, or anything else. What the token-parsing
 * library accepts as an expression, a path or a string literal is left open
 * (`Syntax`); so are its error messages.
 */
module Tokens {
  import opened Wrappers

  datatype Item =
    | KeyValue(key: string, sep: char, value: string)
    | Braced(inner: seq<Item>)
    | Other(text: string)

  /** Which value texts parse as an expression, as a path, or as a string literal (with its value). */
  datatype Syntax = Syntax(isExpr: string -> bool, isPath: string -> bool, strValue: string -> Option<string>)

  /**
   * Why a macro expansion fails: a parse error of the token-parsing library,
   * which a caller may recover from, or a panic, which aborts the expansion.
   */
  datatype MacroError = SynError(message: string) | Panic(message: string)

  /** The panic of `Option::unwrap` on `None`. */
  const UnwrapNone := "called `Option::unwrap()` on a `None` value"
  /** The panic of `Result::unwrap` on an error (followed by the error). */
  const UnwrapErr := "called `Result::unwrap()` on an `Err` value"

  /** `expected <what>`, the form of the library's parse errors. */
  function Expected(what: string): string {
    "expected " + what
  }

  /**
   * `parse_terminated`, and likewise a `map(..).collect()` whose closure may
   * panic: each item handled in turn; the first failure ends the whole with
   * that failure, and it is the `Failing` item's.
   */
  function EachInTurn<T, R>(items: seq<T>, parse: T -> Result<R, MacroError>): (r: Result<seq<R>, MacroError>)
    ensures r.Ok? <==> Failing(items, parse).None?
    ensures r.Ok? ==> |r.value| == |items| && forall i :: 0 <= i < |items| ==> parse(items[i]) == Ok(r.value[i])
    ensures r.Err? ==> parse(items[Failing(items, parse).value]) == Err(r.error)
  {
    if |items| == 0 then Ok([])
    else match parse(items[0])
      case Err(e) => Err(e)
      case Ok(v) =>
        match EachInTurn(items[1..], parse)
        case Err(e) => Err(e)
        case Ok(vs) =>
          assert forall i :: 1 <= i < |items| ==> items[i] == items[1..][i - 1];
          Ok([v] + vs)
  }

  /** When every item parses, the whole parses to the items' values in order. */
  lemma EachInTurnOk<T, R>(items: seq<T>, parse: T -> Result<R, MacroError>, values: seq<R>)
    requires |values| == |items| && forall i :: 0 <= i < |items| ==> parse(items[i]) == Ok(values[i])
    ensures EachInTurn(items, parse) == Ok(values)
  {
    var r := EachInTurn(items, parse);
    assert r.value == values;
  }

  /** The index of the first item that does not parse. */
  function Failing<T, R>(items: seq<T>, parse: T -> Result<R, MacroError>): (r: Option<nat>)
    ensures r.Some? ==> r.value < |items| && parse(items[r.value]).Err?
    ensures r.Some? ==> forall j :: 0 <= j < r.value ==> parse(items[j]).Ok?
    ensures r.None? ==> forall j :: 0 <= j < |items| ==> parse(items[j]).Ok?
  {
    if |items| == 0 then None
    else if parse(items[0]).Err? then Some(0)
    else match Failing(items[1..], parse)
      case Some(k) => Some(k + 1)
      case None => None
  }
}
