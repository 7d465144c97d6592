/**
 * The previous layout of the registry (`Config` of wasm-deploy/src/file.rs):
 * chains are a list identified by their `chain_id`, an environment names its
 * chain by that id (the `chainLabel` field of `Env` holds it), and an unknown
 * contract is reported without its name. The other operations behave as in
 * the current registry.
 */
module FileRegistry {
  import opened Wrappers
  import opened Types
  import opened Environments

  /** Everything `save` serialises. */
  datatype Snapshot = Snapshot(
    settings: UserSettings,
    shellCompletionDir: Option<Path>,
    chains: seq<ChainInfo>,
    envs: seq<Env>,
    keys: seq<UserKey>)

  /** No two chains share a `chain_id` (what `add_chain_from` enforces). */
  predicate DistinctChains(chains: seq<ChainInfo>) {
    forall i, j :: 0 <= i < j < |chains| ==> chains[i].cfg.chainId != chains[j].cfg.chainId
  }

  /** No two keys share a name (what `add_key_from` enforces). */
  predicate DistinctKeys(keys: seq<UserKey>) {
    forall i, j :: 0 <= i < j < |keys| ==> keys[i].name != keys[j].name
  }

  class Config {
    var settings: UserSettings
    var shellCompletionDir: Option<Path>
    var chains: seq<ChainInfo>
    var envs: seq<Env>
    var keys: seq<UserKey>
    /** The registry as the last `save` wrote it. */
    var saved: Snapshot

    function Value(): Snapshot
      reads this
    {
      Snapshot(settings, shellCompletionDir, chains, envs, keys)
    }

    /** `Config::init`: default settings, no chains, environments or keys. */
    constructor Init()
      ensures settings == DefaultUserSettings() && shellCompletionDir == None
      ensures chains == [] && envs == [] && keys == []
      ensures saved == Value()
    {
      settings := DefaultUserSettings();
      shellCompletionDir := None;
      chains := [];
      envs := [];
      keys := [];
      saved := Snapshot(DefaultUserSettings(), None, [], [], []);
    }

    /** `save`: the whole registry is written out. */
    method Save()
      modifies this`saved
      ensures saved == Value()
    {
      saved := Value();
    }

    /** `get_active_env`: the first environment flagged active. */
    function GetActiveEnv(): (r: Result<Env, DeployError>)
      reads this
      ensures ActiveIndex(envs).None? <==> r == Err(EnvNotFound)
      ensures r.Ok? ==> r.value == envs[ActiveIndex(envs).value] && r.value.isActive
    {
      match ActiveIndex(envs)
      case Some(i) => Ok(envs[i])
      case None => Err(EnvNotFound)
    }

    /** `get_active_chain_info`: the first chain whose id is the active environment's. */
    function GetActiveChainInfo(): (r: Result<ChainInfo, DeployError>)
      reads this
      ensures GetActiveEnv().Err? ==> r == Err(EnvNotFound)
      ensures GetActiveEnv().Ok? ==>
        (r.Ok? <==> exists i :: 0 <= i < |chains| && chains[i].cfg.chainId == GetActiveEnv().value.chainLabel)
      ensures r.Ok? ==> r.value.cfg.chainId == GetActiveEnv().value.chainLabel
      ensures r.Ok? ==> exists i :: (0 <= i < |chains| && chains[i] == r.value &&
        forall j :: 0 <= j < i ==> chains[j].cfg.chainId != r.value.cfg.chainId)
      ensures GetActiveEnv().Ok? && r.Err? ==> r.error == ChainConfigNotFound
    {
      match GetActiveEnv()
      case Err(e) => Err(e)
      case Ok(env) =>
        match Seqs.Position(chains, (c: ChainInfo) => c.cfg.chainId == env.chainLabel)
        case Some(i) => Ok(chains[i])
        case None => Err(ChainConfigNotFound)
    }

    /** `get_active_key`: the key named by the active environment. */
    function GetActiveKey(): (r: Result<UserKey, DeployError>)
      reads this
      ensures GetActiveEnv().Err? ==> r == Err(EnvNotFound)
      ensures GetActiveEnv().Ok? ==> (r.Ok? <==> exists k :: k in keys && k.name == GetActiveEnv().value.keyName)
      ensures r.Ok? ==> r.value in keys && r.value.name == GetActiveEnv().value.keyName
      ensures r.Ok? ==> FirstKeyNamed(keys, GetActiveEnv().value.keyName, r.value)
      ensures GetActiveEnv().Ok? && r.Err? ==> r.error == KeyNotFound(GetActiveEnv().value.keyName)
    {
      match GetActiveEnv()
      case Err(e) => Err(e)
      case Ok(env) =>
        match Seqs.Find(keys, (k: UserKey) => k.name == env.keyName)
        case Some(k) => Ok(k)
        case None => Err(KeyNotFound(env.keyName))
    }

    /** `get_contract`: the first entry of the active environment with that name; the failure does not name it. */
    function GetContract(name: string): (r: Result<ContractInfo, DeployError>)
      reads this
      ensures GetActiveEnv().Err? ==> r == Err(EnvNotFound)
      ensures GetActiveEnv().Ok? ==> (r.Ok? <==> exists c :: c in ActiveEntries(envs) && c.name == name)
      ensures r.Ok? ==> Some(r.value) == Lookup(ActiveEntries(envs), name)
      ensures GetActiveEnv().Ok? && r.Err? ==> r.error == ContractNotFound(None)
    {
      match GetActiveEnv()
      case Err(e) => Err(e)
      case Ok(env) =>
        match Lookup(env.contracts, name)
        case Some(c) => Ok(c)
        case None => Err(ContractNotFound(None))
    }

    /** `get_contract_addr`: the registered address of the named contract. */
    function GetContractAddr(name: string): (r: Result<string, DeployError>)
      reads this
      ensures GetContract(name).Err? ==> r == Err(GetContract(name).error)
      ensures GetContract(name).Ok? ==> (r.Ok? <==> GetContract(name).value.addr.Some?)
      ensures r.Ok? ==> GetContract(name).value.addr == Some(r.value)
      ensures GetContract(name).Ok? && r.Err? ==> r.error == AddrNotFound(Some(name))
    {
      match GetContract(name)
      case Err(e) => Err(e)
      case Ok(c) =>
        match c.addr
        case Some(a) => Ok(a)
        case None => Err(AddrNotFound(Some(name)))
    }

    /** `add_chain_from`: a chain whose id is already listed is refused; otherwise it is appended. */
    method AddChainFrom(info: ChainInfo) returns (r: Result<ChainInfo, DeployError>)
      modifies this`chains
      ensures (exists j :: 0 <= j < |old(chains)| && old(chains)[j].cfg.chainId == info.cfg.chainId) ==>
        r == Err(ChainAlreadyExists) && chains == old(chains)
      ensures (forall j :: 0 <= j < |old(chains)| ==> old(chains)[j].cfg.chainId != info.cfg.chainId) ==>
        r == Ok(info) && chains == old(chains) + [info]
      ensures DistinctChains(old(chains)) ==> DistinctChains(chains)
    {
      var i := 0;
      while i < |chains|
        invariant 0 <= i <= |chains|
        invariant forall j :: 0 <= j < i ==> chains[j].cfg.chainId != info.cfg.chainId
      {
        if chains[i].cfg.chainId == info.cfg.chainId {
          return Err(ChainAlreadyExists);
        }
        i := i + 1;
      }
      chains := chains + [info];
      return Ok(info);
    }

    /**
     * `add_contract_from`: in the active environment, the first entry with the
     * new entry's name is replaced, or the entry is appended; no other
     * environment changes, and the entry is then what `get_contract` finds.
     */
    method AddContractFrom(c: ContractInfo) returns (r: Result<ContractInfo, DeployError>)
      modifies this`envs
      ensures ActiveIndex(old(envs)).None? ==> r == Err(EnvNotFound) && envs == old(envs)
      ensures ActiveIndex(old(envs)).Some? ==>
        var a := ActiveIndex(old(envs)).value;
        r == Ok(c) && envs == old(envs)[a := old(envs)[a].(contracts := Upsert(old(envs)[a].contracts, c))]
      ensures r.Ok? ==> GetContract(c.name) == Ok(c)
    {
      match ActiveIndex(envs)
      case None =>
        return Err(EnvNotFound);
      case Some(a) =>
        var e := envs[a];
        envs := envs[a := e.(contracts := Upsert(e.contracts, c))];
        assert envs[a].isActive && forall j :: 0 <= j < a ==> envs[j] == old(envs)[j];
        assert ActiveIndex(envs) == Some(a);
        UpsertLookup(e.contracts, c, c.name);
        return Ok(c);
    }

    /** `add_key_from`: a key whose name is already used is refused; otherwise it is appended. */
    method AddKeyFrom(k: UserKey) returns (r: Result<UserKey, DeployError>)
      modifies this`keys
      ensures (exists j :: 0 <= j < |old(keys)| && old(keys)[j].name == k.name) ==>
        r == Err(KeyAlreadyExists) && keys == old(keys)
      ensures (forall j :: 0 <= j < |old(keys)| ==> old(keys)[j].name != k.name) ==>
        r == Ok(k) && keys == old(keys) + [k]
      ensures DistinctKeys(old(keys)) ==> DistinctKeys(keys)
    {
      var i := 0;
      while i < |keys|
        invariant 0 <= i <= |keys|
        invariant forall j :: 0 <= j < i ==> keys[j].name != k.name
      {
        if keys[i].name == k.name {
          return Err(KeyAlreadyExists);
        }
        i := i + 1;
      }
      keys := keys + [k];
      return Ok(k);
    }

    /** `change_env`: each environment is active exactly when it equals the pick. */
    method ChangeEnv(answer: Env) returns (r: Result<(), DeployError>)
      modifies this`envs
      ensures answer !in old(envs) ==> r == Err(PromptFailed) && envs == old(envs)
      ensures answer in old(envs) ==> r == Ok(()) && envs == Activate(old(envs), answer)
    {
      var picked := Select(envs, answer);
      if picked.Err? {
        return Err(picked.error);
      }
      var i := 0;
      while i < |envs|
        invariant 0 <= i <= |envs| == |old(envs)|
        invariant envs[..i] == Activate(old(envs), answer)[..i]
        invariant envs[i..] == old(envs)[i..]
      {
        var x := envs[i];
        assert x == old(envs)[i];
        envs := envs[i := x.(isActive := x == answer)];
        i := i + 1;
      }
      return Ok(());
    }

    /**
     * `add_env`, with its prompts as parameters: the id is refused if already
     * used; the chain is picked among the listed chain ids and the key among
     * the key names; the new environment is appended active with no
     * contracts; when it is not the only one, `change_env` asks which one to
     * activate.
     */
    method AddEnv(envId: string, chainAnswer: string, keyAnswer: string, activeAnswer: Env)
      returns (r: Result<Env, DeployError>)
      modifies this`envs
      ensures !FreshId(old(envs), envId) ==> r == Err(EnvAlreadyExists) && envs == old(envs)
      ensures FreshId(old(envs), envId) && !(HasChain(chains, chainAnswer) && HasKey(keys, keyAnswer)) ==>
        r == Err(PromptFailed) && envs == old(envs)
      ensures FreshId(old(envs), envId) && HasChain(chains, chainAnswer) && HasKey(keys, keyAnswer) ==>
        var pushed := old(envs) + [Env(true, envId, chainAnswer, [], keyAnswer)];
        if |pushed| == 1 then r == Ok(pushed[0]) && envs == pushed
        else if activeAnswer in pushed then envs == Activate(pushed, activeAnswer) && r == Ok(envs[|envs| - 1])
        else r == Err(PromptFailed) && envs == pushed
    {
      var i := 0;
      while i < |envs|
        invariant 0 <= i <= |envs|
        invariant forall j :: 0 <= j < i ==> envs[j].envId != envId
      {
        if envs[i].envId == envId {
          return Err(EnvAlreadyExists);
        }
        i := i + 1;
      }
      var cs := chains;
      var ids := seq(|cs|, j requires 0 <= j < |cs| => cs[j].cfg.chainId);
      var chainId := Select(ids, chainAnswer);
      if chainId.Err? {
        assert !HasChain(chains, chainAnswer) by {
          forall j | 0 <= j < |chains| ensures chains[j].cfg.chainId != chainAnswer {
            assert ids[j] == chains[j].cfg.chainId;
          }
        }
        return Err(chainId.error);
      }
      assert HasChain(chains, chainAnswer) by {
        var j :| 0 <= j < |ids| && ids[j] == chainAnswer;
        assert chains[j].cfg.chainId == chainAnswer;
      }
      var ks := keys;
      var names := seq(|ks|, j requires 0 <= j < |ks| => ks[j].name);
      var keyName := Select(names, keyAnswer);
      if keyName.Err? {
        assert !HasKey(keys, keyAnswer) by {
          forall j | 0 <= j < |keys| ensures keys[j].name != keyAnswer {
            assert names[j] == keys[j].name;
          }
        }
        return Err(keyName.error);
      }
      assert HasKey(keys, keyAnswer) by {
        var j :| 0 <= j < |names| && names[j] == keyAnswer;
        assert keys[j].name == keyAnswer;
      }
      envs := envs + [Env(true, envId, chainId.value, [], keyName.value)];
      if |envs| > 1 {
        var changed := ChangeEnv(activeAnswer);
        if changed.Err? {
          return Err(changed.error);
        }
      }
      return Ok(envs[|envs| - 1]);
    }
  }

  /** Some chain has the id `chainId`. */
  predicate HasChain(chains: seq<ChainInfo>, chainId: string) {
    exists j :: 0 <= j < |chains| && chains[j].cfg.chainId == chainId
  }
}
