/** The two iterator idioms the registry code leans on: `position`/`find` and `retain`. */
module Seqs {
  import opened Wrappers

  /** `iter().position(p)`: the index of the first element satisfying `p`. */
  function Position<T>(s: seq<T>, p: T -> bool): (r: Option<nat>)
    ensures r.Some? ==> r.value < |s| && p(s[r.value])
    ensures r.Some? ==> forall j :: 0 <= j < r.value ==> !p(s[j])
    ensures r.None? ==> forall j :: 0 <= j < |s| ==> !p(s[j])
  {
    if |s| == 0 then None
    else if p(s[0]) then Some(0)
    else match Position(s[1..], p)
      case Some(k) => Some(k + 1)
      case None => None
  }

  /** Two searches that test corresponding elements alike land at the same place. */
  lemma {:induction false} PositionAlike<T, U>(s: seq<T>, p: T -> bool, t: seq<U>, q: U -> bool)
    requires |s| == |t| && forall i :: 0 <= i < |s| ==> p(s[i]) == q(t[i])
    ensures Position(s, p) == Position(t, q)
  {
    if |s| > 0 {
      assert forall i :: 0 <= i < |s| - 1 ==> s[1..][i] == s[i + 1] && t[1..][i] == t[i + 1];
      PositionAlike(s[1..], p, t[1..], q);
    }
  }

  /** `iter().find(p)`: the first element satisfying `p`. */
  function Find<T>(s: seq<T>, p: T -> bool): (r: Option<T>)
    ensures r.Some? <==> exists j :: 0 <= j < |s| && p(s[j])
    ensures r.Some? ==> r.value in s && p(r.value)
    ensures r.Some? ==> exists i :: 0 <= i < |s| && s[i] == r.value && forall j :: 0 <= j < i ==> !p(s[j])
  {
    match Position(s, p)
    case Some(i) => Some(s[i])
    case None => None
  }

  /** `Vec::retain(keep)`: the elements satisfying `keep`, in their original order. */
  function Retain<T>(s: seq<T>, keep: T -> bool): (r: seq<T>)
    ensures |r| <= |s|
    ensures forall i :: 0 <= i < |r| ==> r[i] in s && keep(r[i])
    ensures forall i :: 0 <= i < |s| && keep(s[i]) ==> s[i] in r
  {
    if |s| == 0 then []
    else
      var init := s[..|s| - 1];
      assert forall j :: 0 <= j < |init| ==> init[j] == s[j];
      if keep(s[|s| - 1]) then Retain(init, keep) + [s[|s| - 1]] else Retain(init, keep)
  }

  /** Retaining over one more element: it is kept at the end exactly when it satisfies `keep`. */
  lemma RetainStep<T>(s: seq<T>, keep: T -> bool, i: nat)
    requires i < |s|
    ensures Retain(s[..i + 1], keep) == Retain(s[..i], keep) + (if keep(s[i]) then [s[i]] else [])
  {
    assert s[..i + 1][..i] == s[..i];
  }

  /** Retaining keeps relative order: the result is a subsequence picked by increasing indices. */
  lemma {:induction false} RetainIsSubsequence<T>(s: seq<T>, keep: T -> bool, i: nat, j: nat)
    requires i < j < |s| && keep(s[i]) && keep(s[j])
    ensures exists a, b :: 0 <= a < b < |Retain(s, keep)| && Retain(s, keep)[a] == s[i] && Retain(s, keep)[b] == s[j]
  {
    var init := s[..|s| - 1];
    var t := Retain(init, keep);
    assert init[i] == s[i];
    if j == |s| - 1 {
      assert s[i] in t;
      var a :| 0 <= a < |t| && t[a] == s[i];
      assert Retain(s, keep) == t + [s[j]];
      assert Retain(s, keep)[a] == s[i] && Retain(s, keep)[|t|] == s[j];
    } else {
      assert init[j] == s[j];
      RetainIsSubsequence(init, keep, i, j);
      var a, b :| 0 <= a < b < |t| && t[a] == s[i] && t[b] == s[j];
      assert Retain(s, keep)[a] == s[i] && Retain(s, keep)[b] == s[j];
    }
  }

  /** Retaining by `k1` and then by `k2` is retaining once by their conjunction `both`. */
  lemma {:induction false} RetainRetain<T>(s: seq<T>, k1: T -> bool, k2: T -> bool, both: T -> bool)
    requires forall x :: both(x) == (k1(x) && k2(x))
    ensures Retain(Retain(s, k1), k2) == Retain(s, both)
  {
    if |s| > 0 {
      var init := s[..|s| - 1];
      var x := s[|s| - 1];
      RetainRetain(init, k1, k2, both);
      if k1(x) {
        var t := Retain(init, k1);
        assert (t + [x])[..|t|] == t;
      }
    }
  }

  /** Retaining with a test every element passes changes nothing. */
  lemma {:induction false} RetainAll<T>(s: seq<T>, keep: T -> bool)
    requires forall i :: 0 <= i < |s| ==> keep(s[i])
    ensures Retain(s, keep) == s
  {
    if |s| > 0 {
      RetainAll(s[..|s| - 1], keep);
      assert s[..|s| - 1] + [s[|s| - 1]] == s;
    }
  }

  /** A relation holding between every earlier and later element still holds after retaining. */
  lemma {:induction false} RetainPairwise<T>(s: seq<T>, keep: T -> bool, rel: (T, T) -> bool)
    requires forall i, j :: 0 <= i < j < |s| ==> rel(s[i], s[j])
    ensures forall i, j :: 0 <= i < j < |Retain(s, keep)| ==> rel(Retain(s, keep)[i], Retain(s, keep)[j])
  {
    if |s| > 0 {
      var init := s[..|s| - 1];
      var last := s[|s| - 1];
      var t := Retain(init, keep);
      RetainPairwise(init, keep, rel);
      assert forall i, j :: 0 <= i < j < |t| ==> rel(t[i], t[j]);
      if keep(last) {
        var r := t + [last];
        assert Retain(s, keep) == r;
        forall i, j | 0 <= i < j < |r|
          ensures rel(r[i], r[j])
        {
          if j == |t| {
            var k :| 0 <= k < |init| && init[k] == r[i];
            assert rel(s[k], s[|s| - 1]);
          } else {
            assert r[i] == t[i] && r[j] == t[j];
          }
        }
      } else {
        assert Retain(s, keep) == t;
      }
    }
  }

  /**
   * Building a request list the way the stage loops do: each element
   * contributes a list of items or an error, and the first error (in input
   * order) aborts the whole walk.
   */
  function TryFlatMap<T, R, E>(xs: seq<T>, f: T -> Result<seq<R>, E>): (r: Result<seq<R>, E>)
    ensures r.Ok? <==> forall i :: 0 <= i < |xs| ==> f(xs[i]).Ok?
    ensures r.Err? ==> exists i :: 0 <= i < |xs| && f(xs[i]) == Err(r.error) && forall j :: 0 <= j < i ==> f(xs[j]).Ok?
  {
    if |xs| == 0 then Ok([])
    else
      var init := xs[..|xs| - 1];
      assert forall j :: 0 <= j < |init| ==> init[j] == xs[j];
      match TryFlatMap(init, f)
      case Err(e) => Err(e)
      case Ok(rs) =>
        match f(xs[|xs| - 1])
        case Err(e) => Err(e)
        case Ok(ys) => Ok(rs + ys)
  }

  /** One more element: the walk over a prefix extended by the next element's contribution. */
  lemma TryFlatMapStep<T, R, E>(xs: seq<T>, f: T -> Result<seq<R>, E>, i: nat)
    requires i < |xs|
    ensures TryFlatMap(xs[..i + 1], f) ==
      match TryFlatMap(xs[..i], f)
      case Err(e) => Err(e)
      case Ok(rs) => (match f(xs[i]) case Err(e) => Err(e) case Ok(ys) => Ok(rs + ys))
    ensures f(xs[i]) == Ok([]) ==> TryFlatMap(xs[..i + 1], f) == TryFlatMap(xs[..i], f)
  {
    assert xs[..i + 1][..i] == xs[..i];
    if f(xs[i]) == Ok([]) && TryFlatMap(xs[..i], f).Ok? {
      assert TryFlatMap(xs[..i], f).value + [] == TryFlatMap(xs[..i], f).value;
    }
  }

  /** Once a prefix has failed, the whole walk fails with the same error. */
  lemma {:induction false} TryFlatMapErrPrefix<T, R, E>(xs: seq<T>, f: T -> Result<seq<R>, E>, n: nat)
    requires n <= |xs| && TryFlatMap(xs[..n], f).Err?
    ensures TryFlatMap(xs, f) == TryFlatMap(xs[..n], f)
    decreases |xs| - n
  {
    if n == |xs| {
      assert xs[..n] == xs;
    } else {
      TryFlatMapStep(xs, f, n);
      TryFlatMapErrPrefix(xs, f, n + 1);
    }
  }

  /** When every element contributes exactly one item, the walk yields them position by position. */
  lemma {:induction false} TryFlatMapSingles<T, R, E>(xs: seq<T>, f: T -> Result<seq<R>, E>)
    requires forall i :: 0 <= i < |xs| ==> f(xs[i]).Ok? && |f(xs[i]).value| == 1
    ensures TryFlatMap(xs, f).Ok? && |TryFlatMap(xs, f).value| == |xs|
    ensures forall i :: 0 <= i < |xs| ==> TryFlatMap(xs, f).value[i] == f(xs[i]).value[0]
  {
    if |xs| > 0 {
      var init := xs[..|xs| - 1];
      TryFlatMapSingles(init, f);
    }
  }

  /**
   * When every element contributes one item if it satisfies `keep` and none
   * otherwise, the k-th item of the walk is the one contributed by the k-th
   * element that satisfies `keep`.
   */
  lemma {:induction false} TryFlatMapKeep<T, R, E>(xs: seq<T>, f: T -> Result<seq<R>, E>, keep: T -> bool)
    requires forall i :: 0 <= i < |xs| ==> f(xs[i]).Ok? && |f(xs[i]).value| == (if keep(xs[i]) then 1 else 0)
    ensures TryFlatMap(xs, f).Ok? && |TryFlatMap(xs, f).value| == |Retain(xs, keep)|
    ensures forall k :: 0 <= k < |Retain(xs, keep)| ==> f(Retain(xs, keep)[k]) == Ok([TryFlatMap(xs, f).value[k]])
  {
    if |xs| > 0 {
      var init := xs[..|xs| - 1];
      var x := xs[|xs| - 1];
      assert forall j :: 0 <= j < |init| ==> init[j] == xs[j];
      TryFlatMapKeep(init, f, keep);
      var rs := TryFlatMap(init, f).value;
      var t := Retain(init, keep);
      if keep(x) {
        assert TryFlatMap(xs, f).value == rs + f(x).value;
        assert Retain(xs, keep) == t + [x];
        assert f(x).value == [f(x).value[0]];
      } else {
        assert f(x).value == [];
        assert TryFlatMap(xs, f).value == rs;
      }
    }
  }

  /** A walk in which every element contributes nothing yields the empty list. */
  lemma {:induction false} TryFlatMapAllEmpty<T, R, E>(xs: seq<T>, f: T -> Result<seq<R>, E>)
    requires forall i :: 0 <= i < |xs| ==> f(xs[i]) == Ok([])
    ensures TryFlatMap(xs, f) == Ok([])
  {
    if |xs| > 0 {
      var init := xs[..|xs| - 1];
      assert forall j :: 0 <= j < |init| ==> init[j] == xs[j];
      TryFlatMapAllEmpty(init, f);
      var none: seq<R> := [];
      assert none + none == none;
    }
  }

  /** Every element paired with each of its items: element by element, and in each element's own order. */
  function Pairs<T, U>(xs: seq<T>, items: T -> seq<U>): seq<(T, U)> {
    if |xs| == 0 then []
    else
      var x := xs[|xs| - 1];
      var own := seq(|items(x)|, k requires 0 <= k < |items(x)| => (x, items(x)[k]));
      assert forall j :: 0 <= j < |own| ==> own[j].1 == items(x)[j];
      Pairs(xs[..|xs| - 1], items) + own
  }

  /**
   * When every element contributes one item per entry of `items`, built by
   * `g` from the element and that entry, the walk yields `g` over `Pairs`.
   */
  lemma {:induction false} TryFlatMapPairs<T, U, R, E>(xs: seq<T>, f: T -> Result<seq<R>, E>, items: T -> seq<U>, g: (T, U) -> R)
    requires forall i :: 0 <= i < |xs| ==> f(xs[i]).Ok? && |f(xs[i]).value| == |items(xs[i])|
    requires forall i, k :: 0 <= i < |xs| && 0 <= k < |items(xs[i])| ==> f(xs[i]).value[k] == g(xs[i], items(xs[i])[k])
    ensures TryFlatMap(xs, f).Ok? && |TryFlatMap(xs, f).value| == |Pairs(xs, items)|
    ensures forall j :: 0 <= j < |Pairs(xs, items)| ==> TryFlatMap(xs, f).value[j] == g(Pairs(xs, items)[j].0, Pairs(xs, items)[j].1)
  {
    if |xs| > 0 {
      var init := xs[..|xs| - 1];
      var x := xs[|xs| - 1];
      assert forall j :: 0 <= j < |init| ==> init[j] == xs[j];
      TryFlatMapPairs(init, f, items, g);
      var rs := TryFlatMap(init, f).value;
      var ps := Pairs(init, items);
      var own := seq(|items(x)|, k requires 0 <= k < |items(x)| => (x, items(x)[k]));
      assert Pairs(xs, items) == ps + own;
      assert TryFlatMap(xs, f).value == rs + f(x).value;
      forall j | 0 <= j < |Pairs(xs, items)|
        ensures TryFlatMap(xs, f).value[j] == g(Pairs(xs, items)[j].0, Pairs(xs, items)[j].1)
      {
        if j >= |ps| {
          assert f(x).value[j - |ps|] == g(x, items(x)[j - |ps|]);
        }
      }
    }
  }

  /** Each pair holds an element of the list and one of that element's items. */
  lemma {:induction false} PairsMember<T, U>(xs: seq<T>, items: T -> seq<U>, j: nat)
    requires j < |Pairs(xs, items)|
    ensures Pairs(xs, items)[j].0 in xs && Pairs(xs, items)[j].1 in items(Pairs(xs, items)[j].0)
    decreases |xs|
  {
    var init := xs[..|xs| - 1];
    var x := xs[|xs| - 1];
    var own := seq(|items(x)|, k requires 0 <= k < |items(x)| => (x, items(x)[k]));
    assert Pairs(xs, items) == Pairs(init, items) + own;
    if j < |Pairs(init, items)| {
      PairsMember(init, items, j);
      assert Pairs(xs, items)[j] == Pairs(init, items)[j];
      assert forall y :: y in init ==> y in xs;
    } else {
      assert Pairs(xs, items)[j] == own[j - |Pairs(init, items)|];
    }
  }

  /** Where the pairs of the i-th element sit in `Pairs`: right after those of the elements before it. */
  lemma PairsAt<T, U>(xs: seq<T>, items: T -> seq<U>, i: nat)
    requires i < |xs|
    ensures |Pairs(xs[..i + 1], items)| == |Pairs(xs[..i], items)| + |items(xs[i])|
    ensures |Pairs(xs[..i + 1], items)| <= |Pairs(xs, items)|
    ensures forall j :: 0 <= j < |items(xs[i])| ==> Pairs(xs, items)[|Pairs(xs[..i], items)| + j] == (xs[i], items(xs[i])[j])
  {
    var ys := xs[..i + 1];
    assert ys[..i] == xs[..i] && ys[i] == xs[i];
    var p := Pairs(xs[..i], items);
    var q := Pairs(ys, items);
    assert |q| == |p| + |items(xs[i])|;
    assert forall j :: 0 <= j < |items(xs[i])| ==> q[|p| + j] == (xs[i], items(xs[i])[j]);
    PairsPrefix(xs, items, i + 1);
    assert forall j :: 0 <= j < |q| ==> Pairs(xs, items)[j] == q[j];
  }

  /** The pairs of a prefix are a prefix of the pairs. */
  lemma {:induction false} PairsPrefix<T, U>(xs: seq<T>, items: T -> seq<U>, n: nat)
    requires n <= |xs|
    ensures |Pairs(xs[..n], items)| <= |Pairs(xs, items)|
    ensures Pairs(xs, items)[..|Pairs(xs[..n], items)|] == Pairs(xs[..n], items)
    decreases |xs| - n
  {
    if n == |xs| {
      assert xs[..n] == xs;
    } else {
      PairsPrefix(xs, items, n + 1);
      assert xs[..n + 1][..n] == xs[..n];
    }
  }
}
