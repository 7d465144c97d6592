/**
 * The registry edits of wasm-deploy/src/commands.rs: deleting chains, keys,
 * contracts of the active environment and environments, and selecting the
 * active environment. Each asks the user to pick among the current entries
 * (a parameter here), removes what was picked one pick at a time the way
 * `HashMap::remove` and `Vec::retain` do, and saves the registry.
 */
module Edits {
  import opened Wrappers
  import opened Types
  import opened Seqs
  import opened Environments
  import opened Registry

  /**
   * inquire's `MultiSelect`: refused over an empty option list; otherwise the
   * answers, all of which must be among the options.
   */
  function MultiSelect<T(==)>(options: set<T>, answers: seq<T>): (r: Result<seq<T>, DeployError>)
    ensures r.Ok? <==> options != {} && forall i :: 0 <= i < |answers| ==> answers[i] in options
    ensures r.Ok? ==> r.value == answers
    ensures r.Err? ==> r.error == PromptFailed
  {
    if options != {} && forall i :: 0 <= i < |answers| ==> answers[i] in options then Ok(answers) else Err(PromptFailed)
  }

  // ----- Removing picks one at a time -----

  /** A key's name: what key deletion compares. */
  function KeyName(k: UserKey): string {
    k.name
  }

  /** The whole value: what contract and environment deletion compare. */
  function Itself<T>(x: T): T {
    x
  }

  /** `retain(|x| key(x) != k)`: drop every element whose key is `k`. */
  function Drop<T, K(==)>(s: seq<T>, key: T -> K, k: K): seq<T> {
    Retain(s, x => key(x) != k)
  }

  /** The picks dropped one after the other, in the order picked. */
  function DropEach<T, K(==)>(s: seq<T>, key: T -> K, ks: seq<K>): seq<T>
    decreases |ks|
  {
    if |ks| == 0 then s else Drop(DropEach(s, key, ks[..|ks| - 1]), key, ks[|ks| - 1])
  }

  /**
   * Dropping the picks one by one is one pass keeping the elements whose key
   * was not picked: the survivors keep their order, and an element survives
   * exactly when its key is not among the picks.
   */
  lemma {:induction false} DropEachOnce<T, K>(s: seq<T>, key: T -> K, ks: seq<K>, unpicked: T -> bool)
    requires forall x :: unpicked(x) == (key(x) !in ks)
    ensures DropEach(s, key, ks) == Retain(s, unpicked)
    ensures forall x :: x in DropEach(s, key, ks) <==> x in s && key(x) !in ks
    decreases |ks|
  {
    if |ks| == 0 {
      RetainAll(s, unpicked);
    } else {
      var init := ks[..|ks| - 1];
      DropEachOnce(s, key, init, x => key(x) !in init);
      RetainRetain(s, x => key(x) !in init, x => key(x) != ks[|ks| - 1], unpicked);
    }
    var r := Retain(s, unpicked);
    forall x | x in s && key(x) !in ks
      ensures x in r
    {
      var i :| 0 <= i < |s| && s[i] == x;
    }
  }

  /** `HashMap::remove` of each pick in turn. */
  function RemoveEach<K, V>(m: map<K, V>, ks: seq<K>): map<K, V>
    decreases |ks|
  {
    if |ks| == 0 then m else RemoveEach(m, ks[..|ks| - 1]) - {ks[|ks| - 1]}
  }

  /** After removing the picks, a label is left exactly when it was there and not picked, with its entry intact. */
  lemma {:induction false} RemoveEachLeaves<K, V>(m: map<K, V>, ks: seq<K>)
    ensures forall k :: k in RemoveEach(m, ks) <==> k in m && k !in ks
    ensures forall k :: k in RemoveEach(m, ks) ==> RemoveEach(m, ks)[k] == m[k]
    decreases |ks|
  {
    if |ks| > 0 {
      RemoveEachLeaves(m, ks[..|ks| - 1]);
      assert forall k :: k in ks <==> k in ks[..|ks| - 1] || k == ks[|ks| - 1];
    }
  }

  // ----- The edits -----

  /** `chain --delete`: remove the picked chain labels, then save. */
  method ChainDelete(config: Config, answers: seq<string>) returns (r: Result<(), DeployError>)
    modifies config`chains, config`saved
    ensures MultiSelect(old(config.chains).Keys, answers).Err? ==>
      r == Err(PromptFailed) && config.chains == old(config.chains) && config.saved == old(config.saved)
    ensures MultiSelect(old(config.chains).Keys, answers).Ok? ==>
      r == Ok(()) && config.chains == RemoveEach(old(config.chains), answers) && config.saved == config.Value()
  {
    var picked := MultiSelect(config.chains.Keys, answers);
    if picked.Err? {
      return Err(picked.error);
    }
    RemoveChains(config, picked.value);
    config.Save();
    r := Ok(());
  }

  /** The loop of `chain --delete`: each picked label removed in turn. */
  method RemoveChains(config: Config, ks: seq<string>)
    modifies config`chains
    ensures config.chains == RemoveEach(old(config.chains), ks)
  {
    var i := 0;
    while i < |ks|
      invariant 0 <= i <= |ks|
      invariant config.chains == RemoveEach(old(config.chains), ks[..i])
    {
      assert ks[..i + 1][..i] == ks[..i];
      config.chains := config.chains - {ks[i]};
      i := i + 1;
    }
    assert ks[..i] == ks;
  }

  /** The names of the registered keys: the options of `key --delete`. */
  function KeyNames(keys: seq<UserKey>): set<string> {
    set i | 0 <= i < |keys| :: keys[i].name
  }

  /** `key --delete`: drop every key whose name was picked, then save. */
  method KeyDelete(config: Config, answers: seq<string>) returns (r: Result<(), DeployError>)
    modifies config`keys, config`saved
    ensures MultiSelect(KeyNames(old(config.keys)), answers).Err? ==>
      r == Err(PromptFailed) && config.keys == old(config.keys) && config.saved == old(config.saved)
    ensures MultiSelect(KeyNames(old(config.keys)), answers).Ok? ==>
      r == Ok(()) && config.keys == DropEach(old(config.keys), KeyName, answers) && config.saved == config.Value()
  {
    var picked := MultiSelect(KeyNames(config.keys), answers);
    if picked.Err? {
      return Err(picked.error);
    }
    DropKeys(config, picked.value);
    config.Save();
    r := Ok(());
  }

  /** The loop of `key --delete`: each picked name dropped in turn. */
  method DropKeys(config: Config, ks: seq<string>)
    modifies config`keys
    ensures config.keys == DropEach(old(config.keys), KeyName, ks)
  {
    var i := 0;
    while i < |ks|
      invariant 0 <= i <= |ks|
      invariant config.keys == DropEach(old(config.keys), KeyName, ks[..i])
    {
      assert ks[..i + 1][..i] == ks[..i];
      config.keys := Drop(config.keys, KeyName, ks[i]);
      i := i + 1;
    }
    assert ks[..i] == ks;
  }

  /** The elements of a list as a set: the options of a prompt over it. */
  function Options<T>(s: seq<T>): set<T> {
    set i | 0 <= i < |s| :: s[i]
  }

  /**
   * `contract --delete`: in the active environment only, drop every entry
   * equal to a picked one, then save.
   */
  method ContractDelete(config: Config, answers: seq<ContractInfo>) returns (r: Result<(), DeployError>)
    modifies config`envs, config`saved
    ensures ActiveIndex(old(config.envs)).None? ==>
      r == Err(EnvNotFound) && config.envs == old(config.envs) && config.saved == old(config.saved)
    ensures ActiveIndex(old(config.envs)).Some? && MultiSelect(Options(ActiveEntries(old(config.envs))), answers).Err? ==>
      r == Err(PromptFailed) && config.envs == old(config.envs) && config.saved == old(config.saved)
    ensures ActiveIndex(old(config.envs)).Some? && MultiSelect(Options(ActiveEntries(old(config.envs))), answers).Ok? ==>
      && r == Ok(())
      && config.envs == WithActiveEntries(old(config.envs), DropEach(ActiveEntries(old(config.envs)), Itself, answers))
      && config.saved == config.Value()
  {
    var active := ActiveIndex(config.envs);
    if active.None? {
      return Err(EnvNotFound);
    }
    var a := active.value;
    var picked := MultiSelect(Options(config.envs[a].contracts), answers);
    if picked.Err? {
      return Err(picked.error);
    }
    DropFromActive(config, a, picked.value);
    config.Save();
    r := Ok(());
  }

  /** The loop of `contract --delete`: each pick dropped from environment `a` in turn. */
  method DropFromActive(config: Config, a: nat, ks: seq<ContractInfo>)
    requires ActiveIndex(config.envs) == Some(a)
    modifies config`envs
    ensures config.envs == WithActiveEntries(old(config.envs), DropEach(ActiveEntries(old(config.envs)), Itself, ks))
  {
    ghost var envs0 := config.envs;
    var i := 0;
    while i < |ks|
      invariant 0 <= i <= |ks|
      invariant config.envs == envs0[a := envs0[a].(contracts := DropEach(envs0[a].contracts, Itself, ks[..i]))]
    {
      assert ks[..i + 1][..i] == ks[..i];
      var env := config.envs[a];
      config.envs := config.envs[a := env.(contracts := Drop(env.contracts, Itself, ks[i]))];
      i := i + 1;
    }
    assert ks[..i] == ks;
  }

  /**
   * `env --delete`: drop every environment equal to a picked one, then ask
   * which survivor to activate and activate it as `change_env` does, then
   * save. A failed second prompt leaves the drops in memory, unsaved.
   */
  method EnvDelete(config: Config, answers: seq<Env>, pick: Env) returns (r: Result<(), DeployError>)
    modifies config`envs, config`saved
    ensures MultiSelect(Options(old(config.envs)), answers).Err? ==>
      r == Err(PromptFailed) && config.envs == old(config.envs) && config.saved == old(config.saved)
    ensures MultiSelect(Options(old(config.envs)), answers).Ok? ==>
      var left := DropEach(old(config.envs), Itself, answers);
      && (pick !in left ==> r == Err(PromptFailed) && config.envs == left && config.saved == old(config.saved))
      && (pick in left ==> r == Ok(()) && config.envs == Activate(left, pick) && config.saved == config.Value())
  {
    var picked := MultiSelect(Options(config.envs), answers);
    if picked.Err? {
      return Err(picked.error);
    }
    DropEnvs(config, picked.value);
    r := config.ChangeEnv(pick);
    if r.Err? {
      return;
    }
    config.Save();
  }

  /** The loop of `env --delete`: each pick dropped in turn. */
  method DropEnvs(config: Config, ks: seq<Env>)
    modifies config`envs
    ensures config.envs == DropEach(old(config.envs), Itself, ks)
  {
    var i := 0;
    while i < |ks|
      invariant 0 <= i <= |ks|
      invariant config.envs == DropEach(old(config.envs), Itself, ks[..i])
    {
      assert ks[..i + 1][..i] == ks[..i];
      config.envs := Drop(config.envs, Itself, ks[i]);
      i := i + 1;
    }
    assert ks[..i] == ks;
  }

  /** `env --select`: activate the picked environment as `change_env` does, then save. */
  method EnvSelect(config: Config, pick: Env) returns (r: Result<(), DeployError>)
    modifies config`envs, config`saved
    ensures pick !in old(config.envs) ==>
      r == Err(PromptFailed) && config.envs == old(config.envs) && config.saved == old(config.saved)
    ensures pick in old(config.envs) ==>
      r == Ok(()) && config.envs == Activate(old(config.envs), pick) && config.saved == config.Value()
  {
    r := config.ChangeEnv(pick);
    if r.Err? {
      return;
    }
    config.Save();
  }

  /**
   * After `env --delete` among environments with distinct ids: the ids stay
   * distinct, no environment that was picked for deletion is left, and
   * exactly one environment, the picked survivor, is active.
   */
  lemma EnvDeleteOutcome(envs: seq<Env>, answers: seq<Env>, pick: Env)
    requires DistinctIds(envs) && pick in DropEach(envs, Itself, answers)
    ensures var left := DropEach(envs, Itself, answers);
      && DistinctIds(left)
      && (forall e :: e in left ==> e !in answers)
      && exists k :: 0 <= k < |left| && left[k] == pick
           && (forall i :: 0 <= i < |left| ==> (Activate(left, pick)[i].isActive <==> i == k))
           && ActiveIndex(Activate(left, pick)) == Some(k)
  {
    var left := DropEach(envs, Itself, answers);
    var unpicked := x => Itself(x) !in answers;
    DropEachOnce(envs, Itself, answers, unpicked);
    RetainPairwise(envs, unpicked, (a: Env, b: Env) => a.envId != b.envId);
    ActivateSelectsExactlyOne(left, pick);
  }
}
