/**
 * The searches and edits every registry version performs on its environment
 * list and on an environment's contract list: the active environment is the
 * first one flagged active, contracts are looked up by name (first match),
 * `add_contract_from` replaces the first entry of the same name or appends,
 * and `change_env` activates exactly the environments equal to the selection.
 */
module Environments {
  import opened Wrappers
  import opened Types
  import opened Seqs

  /** Where a `&mut ContractInfo` handed out by a registry points: an environment and an entry in it. */
  datatype Slot = Slot(env: nat, entry: nat)

  predicate IsActive(e: Env) {
    e.isActive
  }

  /** `envs.iter().position(|x| x.is_active)`. */
  function ActiveIndex(envs: seq<Env>): (r: Option<nat>)
    ensures r.Some? ==> r.value < |envs| && envs[r.value].isActive
    ensures r.Some? ==> forall j :: 0 <= j < r.value ==> !envs[j].isActive
    ensures r.None? <==> forall j :: 0 <= j < |envs| ==> !envs[j].isActive
  {
    Position(envs, IsActive)
  }

  /** `contracts.iter().position(|x| x.name == name)`: where a lookup by name lands. */
  function ContractIndex(cs: seq<ContractInfo>, name: string): (r: Option<nat>)
    ensures r.Some? ==> r.value < |cs| && cs[r.value].name == name
    ensures r.Some? ==> forall j :: 0 <= j < r.value ==> cs[j].name != name
    ensures r.None? <==> forall j :: 0 <= j < |cs| ==> cs[j].name != name
  {
    Position(cs, (c: ContractInfo) => c.name == name)
  }

  /** `contracts.iter().find(|x| x.name == name)`. */
  function Lookup(cs: seq<ContractInfo>, name: string): (r: Option<ContractInfo>)
    ensures r.Some? <==> exists j :: 0 <= j < |cs| && cs[j].name == name
    ensures r.Some? ==> r.value in cs && r.value.name == name
  {
    match ContractIndex(cs, name)
    case Some(i) => Some(cs[i])
    case None => None
  }

  /**
   * The contract-list half of `add_contract_from`: the first entry with the
   * new entry's name is replaced as a whole; without one, the entry is appended.
   */
  function Upsert(cs: seq<ContractInfo>, c: ContractInfo): (r: seq<ContractInfo>)
    ensures (exists j :: 0 <= j < |cs| && cs[j].name == c.name) ==> |r| == |cs|
    ensures (forall j :: 0 <= j < |cs| ==> cs[j].name != c.name) ==> r == cs + [c]
    ensures c in r
    ensures forall j :: 0 <= j < |cs| && cs[j].name != c.name ==> r[j] == cs[j]
  {
    match ContractIndex(cs, c.name)
    case Some(i) => assert cs[i := c][i] == c; cs[i := c]
    case None => cs + [c]
  }

  /** After an upsert, looking the name up finds the new entry, and every other name finds what it found before. */
  lemma UpsertLookup(cs: seq<ContractInfo>, c: ContractInfo, n: string)
    ensures Lookup(Upsert(cs, c), c.name) == Some(c)
    ensures n != c.name ==> Lookup(Upsert(cs, c), n) == Lookup(cs, n)
  {
    UpsertFinds(cs, c);
    if n != c.name {
      match ContractIndex(cs, c.name)
      case Some(i) => UpsertKeepsReplaced(cs, c, i, n);
      case None => UpsertKeepsAppended(cs, c, n);
    }
  }

  lemma UpsertFinds(cs: seq<ContractInfo>, c: ContractInfo)
    ensures Lookup(Upsert(cs, c), c.name) == Some(c)
  {
    var r := Upsert(cs, c);
    match ContractIndex(cs, c.name)
    case Some(i) =>
      assert r == cs[i := c] && r[i] == c;
      assert ContractIndex(r, c.name) == Some(i);
    case None =>
      assert r == cs + [c];
      assert ContractIndex(r, c.name) == Some(|cs|);
  }

  lemma UpsertKeepsReplaced(cs: seq<ContractInfo>, c: ContractInfo, i: nat, n: string)
    requires ContractIndex(cs, c.name) == Some(i) && n != c.name
    ensures Lookup(Upsert(cs, c), n) == Lookup(cs, n)
  {
    var r := cs[i := c];
    assert Upsert(cs, c) == r;
    match ContractIndex(cs, n)
    case Some(k) =>
      assert ContractIndex(r, n) == Some(k);
    case None =>
      assert ContractIndex(r, n) == None;
  }

  lemma UpsertKeepsAppended(cs: seq<ContractInfo>, c: ContractInfo, n: string)
    requires ContractIndex(cs, c.name).None? && n != c.name
    ensures Lookup(Upsert(cs, c), n) == Lookup(cs, n)
  {
    var r := cs + [c];
    assert Upsert(cs, c) == r;
    match ContractIndex(cs, n)
    case Some(k) =>
      assert ContractIndex(r, n) == Some(k);
    case None =>
      assert ContractIndex(r, n) == None;
  }

  /** Re-adding the same entry changes nothing. */
  lemma UpsertIdempotent(cs: seq<ContractInfo>, c: ContractInfo)
    ensures Upsert(Upsert(cs, c), c) == Upsert(cs, c)
  {
    var r := Upsert(cs, c);
    match ContractIndex(cs, c.name)
    case Some(i) =>
      assert r[i] == c;
      assert ContractIndex(r, c.name) == Some(i);
    case None =>
      assert r[|cs|] == c;
      assert ContractIndex(r, c.name) == Some(|cs|);
  }

  /**
   * `envs.iter_mut().for_each(|x| x.is_active = *x == selected)`: the flag of
   * each environment becomes whether it (as it was) equals the selection;
   * nothing else changes.
   */
  function Activate(envs: seq<Env>, selected: Env): (r: seq<Env>)
    ensures |r| == |envs|
    ensures forall i :: 0 <= i < |envs| ==> r[i] == envs[i].(isActive := envs[i] == selected)
  {
    seq(|envs|, i requires 0 <= i < |envs| => envs[i].(isActive := envs[i] == selected))
  }

  /** No two environments share an `env_id` (what `add_env` enforces). */
  predicate DistinctIds(envs: seq<Env>) {
    forall i, j :: 0 <= i < j < |envs| ==> envs[i].envId != envs[j].envId
  }

  /**
   * When the selection is one of the environments and their ids are distinct,
   * exactly one environment is active afterwards: the selected one; and the
   * active lookup finds it.
   */
  lemma ActivateSelectsExactlyOne(envs: seq<Env>, selected: Env)
    requires selected in envs && DistinctIds(envs)
    ensures exists k ::
      && 0 <= k < |envs| && envs[k] == selected
      && (forall i :: 0 <= i < |envs| ==> (Activate(envs, selected)[i].isActive <==> i == k))
      && ActiveIndex(Activate(envs, selected)) == Some(k)
  {
    var r := Activate(envs, selected);
    var k :| 0 <= k < |envs| && envs[k] == selected;
    assert forall i :: 0 <= i < |envs| ==> (r[i].isActive <==> i == k);
    assert r[k].isActive;
    assert ActiveIndex(r) == Some(k);
  }

  /** Activation keeps ids distinct, so it can be repeated. */
  lemma ActivatePreservesIds(envs: seq<Env>, selected: Env)
    requires DistinctIds(envs)
    ensures DistinctIds(Activate(envs, selected))
  {
  }

  /** The contract list of the active environment (empty when there is none). */
  function ActiveEntries(envs: seq<Env>): seq<ContractInfo> {
    match ActiveIndex(envs)
    case Some(a) => envs[a].contracts
    case None => []
  }

  /** The environments with the active one's contract list replaced; nothing else changes. */
  function WithActiveEntries(envs: seq<Env>, entries: seq<ContractInfo>): (r: seq<Env>)
    ensures |r| == |envs|
    ensures ActiveIndex(envs).None? ==> r == envs
    ensures ActiveIndex(envs).Some? ==> var a := ActiveIndex(envs).value;
      r == envs[a := envs[a].(contracts := entries)]
  {
    match ActiveIndex(envs)
    case Some(a) => envs[a := envs[a].(contracts := entries)]
    case None => envs
  }

  /**
   * Rewriting the active environment's contracts leaves the same environment
   * active, shows the new list, and a second rewrite overrides the first.
   */
  lemma WithActiveEntriesKeepsActive(envs: seq<Env>, entries: seq<ContractInfo>, later: seq<ContractInfo>)
    ensures ActiveIndex(WithActiveEntries(envs, entries)) == ActiveIndex(envs)
    ensures ActiveIndex(envs).Some? ==> ActiveEntries(WithActiveEntries(envs, entries)) == entries
    ensures WithActiveEntries(WithActiveEntries(envs, entries), later) == WithActiveEntries(envs, later)
    ensures WithActiveEntries(envs, ActiveEntries(envs)) == envs
  {
    var r := WithActiveEntries(envs, entries);
    PositionAlike(r, IsActive, envs, IsActive);
  }

  /** Two contract lists with the same names, position by position, resolve every name alike. */
  lemma SameNamesSameIndex(a: seq<ContractInfo>, b: seq<ContractInfo>, name: string)
    requires |a| == |b| && forall i :: 0 <= i < |a| ==> a[i].name == b[i].name
    ensures ContractIndex(a, name) == ContractIndex(b, name)
  {
    PositionAlike(a, (c: ContractInfo) => c.name == name, b, (c: ContractInfo) => c.name == name);
  }

  /** No environment of `envs` has the id `envId`. */
  predicate FreshId(envs: seq<Env>, envId: string) {
    forall j :: 0 <= j < |envs| ==> envs[j].envId != envId
  }

  /** Some key is named `name`. */
  predicate HasKey(keys: seq<UserKey>, name: string) {
    exists j :: 0 <= j < |keys| && keys[j].name == name
  }

  /** `k` is the first key named `name`, the one a search by name stops at. */
  predicate FirstKeyNamed(keys: seq<UserKey>, name: string, k: UserKey) {
    exists i :: 0 <= i < |keys| && keys[i] == k && k.name == name && forall j :: 0 <= j < i ==> keys[j].name != name
  }

  /** Appending a fresh id keeps the ids distinct, and so does the activation that may follow. */
  lemma AppendFreshKeepsIdsDistinct(envs: seq<Env>, e: Env, answer: Env)
    requires DistinctIds(envs)
    requires FreshId(envs, e.envId)
    ensures DistinctIds(envs + [e])
    ensures DistinctIds(Activate(envs + [e], answer))
  {
    var p := envs + [e];
    forall i, j | 0 <= i < j < |p|
      ensures p[i].envId != p[j].envId
    {
      if j == |envs| {
        assert p[i] == envs[i];
      } else {
        assert p[i] == envs[i] && p[j] == envs[j];
      }
    }
    assert DistinctIds(p);
    assert forall i :: 0 <= i < |p| ==> Activate(p, answer)[i].envId == p[i].envId;
  }
}
