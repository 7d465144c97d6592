/**
 * A `BTreeMap` keyed by identifiers, as the attribute parsers of the derive
 * macro use it: entries kept in ascending key order, where identifiers compare
 * by their text (the `Ord` of a proc-macro identifier compares its string
 * form), lexicographically, a proper prefix first.
 */
module OrderedMap {
  import opened Wrappers

  /** The strict lexicographic order of `String`. */
  predicate Less(a: string, b: string)
    decreases |a|
  {
    if |a| == 0 then |b| > 0
    else if |b| == 0 then false
    else if a[0] != b[0] then a[0] < b[0]
    else Less(a[1..], b[1..])
  }

  lemma {:induction false} LessIrreflexive(a: string)
    ensures !Less(a, a)
    decreases |a|
  {
    if |a| > 0 { LessIrreflexive(a[1..]); }
  }

  lemma {:induction false} LessTransitive(a: string, b: string, c: string)
    requires Less(a, b) && Less(b, c)
    ensures Less(a, c)
    decreases |a|
  {
    if |a| > 0 && a[0] == b[0] && b[0] == c[0] {
      LessTransitive(a[1..], b[1..], c[1..]);
    }
  }

  /** Any two different strings are ordered one way or the other, and never both. */
  lemma {:induction false} LessTotal(a: string, b: string)
    ensures a != b <==> (Less(a, b) || Less(b, a))
    ensures !(Less(a, b) && Less(b, a))
    decreases |a|
  {
    if |a| == 0 || |b| == 0 {
    } else if a[0] != b[0] {
    } else {
      LessTotal(a[1..], b[1..]);
      assert a == [a[0]] + a[1..] && b == [b[0]] + b[1..];
    }
  }

  datatype Entry<V> = Entry(key: string, value: V)

  /** A map as a list of entries whose keys strictly ascend. */
  predicate Ordered<V>(m: seq<Entry<V>>) {
    forall i, j :: 0 <= i < j < |m| ==> Less(m[i].key, m[j].key)
  }

  /** `BTreeMap::get`. */
  function Get<V>(m: seq<Entry<V>>, k: string): (r: Option<V>)
    ensures r.Some? <==> exists i :: 0 <= i < |m| && m[i].key == k
  {
    if |m| == 0 then None
    else if m[0].key == k then Some(m[0].value)
    else
      var r := Get(m[1..], k);
      assert forall i :: 1 <= i < |m| ==> m[i] == m[1..][i - 1];
      assert r.Some? ==> exists i :: 0 <= i < |m| && m[i].key == k by {
        if r.Some? {
          var i :| 0 <= i < |m[1..]| && m[1..][i].key == k;
          assert m[i + 1].key == k;
        }
      }
      r
  }

  /** In an ordered map every key occurs once, so the entry holding a key is the one `Get` returns. */
  lemma {:induction false} GetAt<V>(m: seq<Entry<V>>, i: nat)
    requires Ordered(m) && i < |m|
    ensures Get(m, m[i].key) == Some(m[i].value)
  {
    if i > 0 {
      LessTotal(m[0].key, m[i].key);
      GetAt(m[1..], i - 1);
    }
  }

  /** Looking a key up in a map with one more entry in front. */
  lemma GetCons<V>(e: Entry<V>, rest: seq<Entry<V>>, k: string)
    ensures Get([e] + rest, k) == if e.key == k then Some(e.value) else Get(rest, k)
  {
    assert ([e] + rest)[1..] == rest;
  }

  /** An entry in front of an ordered map whose keys all exceed its key keeps the map ordered. */
  lemma OrderedCons<V>(e: Entry<V>, rest: seq<Entry<V>>)
    requires Ordered(rest) && forall i :: 0 <= i < |rest| ==> Less(e.key, rest[i].key)
    ensures Ordered([e] + rest)
  {
    var r := [e] + rest;
    forall i, j | 0 <= i < j < |r| ensures Less(r[i].key, r[j].key) {
      assert r[j] == rest[j - 1];
      if i > 0 {
        assert r[i] == rest[i - 1];
      }
    }
  }

  /** The keys of `r` are `k` or keys of `m`. */
  predicate KeysFrom<V>(r: seq<Entry<V>>, m: seq<Entry<V>>, k: string) {
    forall i :: 0 <= i < |r| ==> r[i].key == k || exists j :: 0 <= j < |m| && m[j].key == r[i].key
  }

  /** `BTreeMap::insert`: the key now maps to the value, replacing any earlier value, and no other key changes. */
  function Insert<V>(m: seq<Entry<V>>, k: string, v: V): (r: seq<Entry<V>>)
    requires Ordered(m)
    ensures Ordered(r)
    ensures Get(r, k) == Some(v)
    ensures forall other :: other != k ==> Get(r, other) == Get(m, other)
    ensures forall i :: 0 <= i < |r| ==> r[i].key == k || exists j :: 0 <= j < |m| && m[j].key == r[i].key
  {
    if |m| == 0 then
      InsertFront(m, k, v);
      [Entry(k, v)]
    else if m[0].key == k then
      InsertReplace(m, v);
      OrderedReplace(m, v);
      [Entry(k, v)] + m[1..]
    else if Less(k, m[0].key) then
      OrderedFront(m, k, v);
      InsertFront(m, k, v);
      [Entry(k, v)] + m
    else
      var rest := Insert(m[1..], k, v);
      assert KeysFrom(rest, m[1..], k);
      InsertBehind(m, k, v, rest);
      OrderedBehind(m, k, rest);
      [m[0]] + rest
  }

  /** `Insert` on a map whose first key is the key inserted. */
  lemma InsertReplace<V>(m: seq<Entry<V>>, v: V)
    requires |m| > 0
    ensures var k := m[0].key; var r := [Entry(k, v)] + m[1..];
      && Get(r, k) == Some(v)
      && (forall other :: other != k ==> Get(r, other) == Get(m, other))
      && KeysFrom(r, m, k)
  {
    var k := m[0].key;
    var r := [Entry(k, v)] + m[1..];
    GetCons(Entry(k, v), m[1..], k);
    forall other | other != k ensures Get(r, other) == Get(m, other) {
      GetCons(Entry(k, v), m[1..], other);
    }
    forall i | 0 < i < |r| ensures r[i] == m[i] {
    }
  }

  lemma OrderedReplace<V>(m: seq<Entry<V>>, v: V)
    requires Ordered(m) && |m| > 0
    ensures Ordered([Entry(m[0].key, v)] + m[1..])
  {
    forall i | 0 <= i < |m[1..]| ensures Less(m[0].key, m[1..][i].key) {
      assert m[1..][i] == m[i + 1];
    }
    OrderedCons(Entry(m[0].key, v), m[1..]);
  }

  /** `Insert` in front of the whole map. */
  lemma InsertFront<V>(m: seq<Entry<V>>, k: string, v: V)
    requires forall j :: 0 <= j < |m| ==> m[j].key != k
    ensures var r := [Entry(k, v)] + m;
      && Get(r, k) == Some(v)
      && (forall other :: other != k ==> Get(r, other) == Get(m, other))
      && KeysFrom(r, m, k)
  {
    var r := [Entry(k, v)] + m;
    GetCons(Entry(k, v), m, k);
    forall other | other != k ensures Get(r, other) == Get(m, other) {
      GetCons(Entry(k, v), m, other);
    }
    forall i | 0 < i < |r| ensures r[i] == m[i - 1] {
    }
  }

  lemma OrderedFront<V>(m: seq<Entry<V>>, k: string, v: V)
    requires Ordered(m) && |m| > 0 && Less(k, m[0].key)
    ensures Ordered([Entry(k, v)] + m)
    ensures forall j :: 0 <= j < |m| ==> m[j].key != k
  {
    LessIrreflexive(k);
    forall j | 0 <= j < |m| ensures Less(k, m[j].key) {
      if j > 0 {
        LessTransitive(k, m[0].key, m[j].key);
      }
    }
    OrderedCons(Entry(k, v), m);
  }

  /** `Insert` behind the first entry: the first entry stays in front of the insertion into the rest. */
  lemma InsertBehind<V>(m: seq<Entry<V>>, k: string, v: V, rest: seq<Entry<V>>)
    requires |m| > 0 && m[0].key != k
    requires Get(rest, k) == Some(v)
    requires forall other :: other != k ==> Get(rest, other) == Get(m[1..], other)
    requires KeysFrom(rest, m[1..], k)
    ensures var r := [m[0]] + rest;
      && Get(r, k) == Some(v)
      && (forall other :: other != k ==> Get(r, other) == Get(m, other))
      && KeysFrom(r, m, k)
  {
    var r := [m[0]] + rest;
    GetCons(m[0], rest, k);
    forall other | other != k ensures Get(r, other) == Get(m, other) {
      GetCons(m[0], rest, other);
    }
    forall i | 0 <= i < |r| ensures r[i].key == k || exists j :: 0 <= j < |m| && m[j].key == r[i].key {
      if i == 0 {
        assert m[0].key == r[0].key;
      } else if r[i].key != k {
        assert r[i] == rest[i - 1];
        var j :| 0 <= j < |m[1..]| && m[1..][j].key == r[i].key;
        assert m[j + 1].key == r[i].key;
      }
    }
  }

  lemma OrderedBehind<V>(m: seq<Entry<V>>, k: string, rest: seq<Entry<V>>)
    requires Ordered(m) && |m| > 0 && m[0].key != k && !Less(k, m[0].key)
    requires Ordered(rest) && KeysFrom(rest, m[1..], k)
    ensures Ordered([m[0]] + rest)
  {
    LessTotal(k, m[0].key);
    forall i | 0 <= i < |rest| ensures Less(m[0].key, rest[i].key) {
      if rest[i].key != k {
        var j :| 0 <= j < |m[1..]| && m[1..][j].key == rest[i].key;
        assert m[j + 1].key == rest[i].key;
      }
    }
    OrderedCons(m[0], rest);
  }

  lemma OrderedKeep<V>(m: seq<Entry<V>>, rest: seq<Entry<V>>)
    requires Ordered(m) && |m| > 0 && Ordered(rest)
    requires forall i :: 0 <= i < |rest| ==> exists j :: 0 <= j < |m[1..]| && m[1..][j].key == rest[i].key
    ensures Ordered([m[0]] + rest)
  {
    forall i | 0 <= i < |rest| ensures Less(m[0].key, rest[i].key) {
      var j :| 0 <= j < |m[1..]| && m[1..][j].key == rest[i].key;
      assert m[j + 1].key == rest[i].key;
    }
    OrderedCons(m[0], rest);
  }

  /** `BTreeMap::remove`: the value the key had, and the map without it; no other key changes. */
  function Remove<V>(m: seq<Entry<V>>, k: string): (r: (Option<V>, seq<Entry<V>>))
    requires Ordered(m)
    ensures r.0 == Get(m, k)
    ensures Ordered(r.1) && Get(r.1, k) == None
    ensures forall other :: other != k ==> Get(r.1, other) == Get(m, other)
    ensures |r.1| == if r.0.Some? then |m| - 1 else |m|
    ensures forall i :: 0 <= i < |r.1| ==> exists j :: 0 <= j < |m| && m[j].key == r.1[i].key
  {
    if |m| == 0 then (None, m)
    else if m[0].key == k then
      OrderedTail(m);
      RemoveHead(m);
      (Some(m[0].value), m[1..])
    else
      var (found, rest) := Remove(m[1..], k);
      RemoveBehind(m, k, found, rest);
      OrderedKeep(m, rest);
      (found, [m[0]] + rest)
  }

  /** The entries after the first of an ordered map form an ordered map none of whose keys is the first key. */
  lemma OrderedTail<V>(m: seq<Entry<V>>)
    requires Ordered(m) && |m| > 0
    ensures Ordered(m[1..]) && forall j :: 0 <= j < |m[1..]| ==> m[1..][j].key != m[0].key
  {
    LessIrreflexive(m[0].key);
    forall j | 0 <= j < |m[1..]| ensures m[1..][j].key != m[0].key {
      assert m[1..][j] == m[j + 1];
    }
  }

  /** `Remove` of the first key of a map in which it occurs once. */
  lemma RemoveHead<V>(m: seq<Entry<V>>)
    requires |m| > 0 && forall j :: 0 <= j < |m[1..]| ==> m[1..][j].key != m[0].key
    ensures var k := m[0].key; var r := m[1..];
      && Some(m[0].value) == Get(m, k) && Get(r, k) == None
      && (forall other :: other != k ==> Get(r, other) == Get(m, other))
      && forall i :: 0 <= i < |r| ==> exists j :: 0 <= j < |m| && m[j].key == r[i].key
  {
    var r := m[1..];
    forall i | 0 <= i < |r| ensures exists j :: 0 <= j < |m| && m[j].key == r[i].key {
      assert m[i + 1] == r[i];
    }
  }

  /** `Remove` of a key other than the first: the first entry stays in front of the removal from the rest. */
  lemma RemoveBehind<V>(m: seq<Entry<V>>, k: string, found: Option<V>, rest: seq<Entry<V>>)
    requires |m| > 0 && m[0].key != k
    requires found == Get(m[1..], k) && Get(rest, k) == None
    requires forall other :: other != k ==> Get(rest, other) == Get(m[1..], other)
    requires |rest| == if found.Some? then |m| - 2 else |m| - 1
    requires forall i :: 0 <= i < |rest| ==> exists j :: 0 <= j < |m[1..]| && m[1..][j].key == rest[i].key
    ensures var r := [m[0]] + rest;
      && found == Get(m, k) && Get(r, k) == None
      && (forall other :: other != k ==> Get(r, other) == Get(m, other))
      && |r| == (if found.Some? then |m| - 1 else |m|)
      && forall i :: 0 <= i < |r| ==> exists j :: 0 <= j < |m| && m[j].key == r[i].key
  {
    var r := [m[0]] + rest;
    GetCons(m[0], rest, k);
    forall other | other != k ensures Get(r, other) == Get(m, other) {
      GetCons(m[0], rest, other);
    }
    forall i | 0 <= i < |r| ensures exists j :: 0 <= j < |m| && m[j].key == r[i].key {
      if i == 0 {
        assert m[0].key == r[0].key;
      } else {
        assert r[i] == rest[i - 1];
        var j :| 0 <= j < |m[1..]| && m[1..][j].key == rest[i - 1].key;
        assert m[j + 1].key == r[i].key;
      }
    }
  }

  /** The value the last pair with key `k` carries, if any. */
  function Last<V>(pairs: seq<(string, V)>, k: string): (r: Option<V>)
    ensures r.Some? <==> exists i :: 0 <= i < |pairs| && pairs[i].0 == k
  {
    if |pairs| == 0 then None
    else if pairs[|pairs| - 1].0 == k then Some(pairs[|pairs| - 1].1)
    else
      var init := pairs[..|pairs| - 1];
      assert forall i :: 0 <= i < |init| ==> init[i] == pairs[i];
      Last(init, k)
  }

  /** One more pair: its key now has its value, every other key keeps its last value. */
  lemma LastSnoc<V>(pairs: seq<(string, V)>, p: (string, V), k: string)
    ensures Last(pairs + [p], k) == if k == p.0 then Some(p.1) else Last(pairs, k)
  {
    assert (pairs + [p])[..|pairs|] == pairs;
  }

  /** The value of a pair no later pair with the same key follows is the last value of that key. */
  lemma {:induction false} LastAt<V>(pairs: seq<(string, V)>, i: nat)
    requires i < |pairs| && forall j :: i < j < |pairs| ==> pairs[j].0 != pairs[i].0
    ensures Last(pairs, pairs[i].0) == Some(pairs[i].1)
    decreases |pairs|
  {
    if i < |pairs| - 1 {
      var init := pairs[..|pairs| - 1];
      LastAt(init, i);
    }
  }

  /** `collect` into a `BTreeMap`: pairs are inserted in order, so a repeated key keeps its last value. */
  function Collect<V>(pairs: seq<(string, V)>): (r: seq<Entry<V>>)
    ensures Ordered(r)
    ensures forall k :: Get(r, k) == Last(pairs, k)
  {
    if |pairs| == 0 then []
    else
      var n := |pairs| - 1;
      Insert(Collect(pairs[..n]), pairs[n].0, pairs[n].1)
  }

  /** `into_iter().next()`: the first entry of a non-empty map holds its least key. */
  lemma {:induction false} FirstIsLeast<V>(m: seq<Entry<V>>, k: string)
    requires Ordered(m) && |m| > 0 && Get(m, k).Some?
    ensures k == m[0].key || Less(m[0].key, k)
  {
    var i :| 0 <= i < |m| && m[i].key == k;
  }

  /** The least of a non-empty list of keys. */
  function Least(keys: seq<string>): (r: string)
    requires |keys| > 0
    ensures r in keys
    ensures forall k :: k in keys ==> k == r || Less(r, k)
  {
    if |keys| == 1 then keys[0]
    else
      var rest := Least(keys[1..]);
      if Less(keys[0], rest) then
        forall k | k in keys[1..] && k != rest ensures Less(keys[0], k) {
          LessTransitive(keys[0], rest, k);
        }
        keys[0]
      else
        LessTotal(keys[0], rest);
        rest
  }

  /** A least key is unique: two keys each no greater than every key of a list are the same key. */
  lemma LeastUnique(keys: seq<string>, a: string, b: string)
    requires a in keys && b in keys
    requires forall k :: k in keys ==> k == a || Less(a, k)
    requires forall k :: k in keys ==> k == b || Less(b, k)
    ensures a == b
  {
    LessTotal(a, b);
  }
}
