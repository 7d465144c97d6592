/**
 * The contract registry of the current crate (`Config` of
 * wasm-deploy/src/config/config.rs): user settings, chains by label,
 * environments with their contract lists, and signing keys. Lookups are
 * functions of the fields; the `add_*`/`change_env` operations update the
 * fields in place. `saved` is what the last `save` wrote.
 */
module Registry {
  import opened Wrappers
  import opened Types
  import opened Environments

  /** Everything `save` serialises. */
  datatype Snapshot = Snapshot(
    settings: UserSettings,
    shellCompletionDir: Option<Path>,
    chains: map<string, ChainInfo>,
    envs: seq<Env>,
    keys: seq<UserKey>)

  class Config {
    var settings: UserSettings
    var shellCompletionDir: Option<Path>
    var chains: map<string, ChainInfo>
    var envs: seq<Env>
    var keys: seq<UserKey>
    /** The registry as the last `save` wrote it. */
    var saved: Snapshot

    function Value(): Snapshot
      reads this
    {
      Snapshot(settings, shellCompletionDir, chains, envs, keys)
    }

    /** A registry as `Config::load` returns it: identical to what is on disk. */
    constructor Load(s: Snapshot)
      ensures Value() == s && saved == s
    {
      settings := s.settings;
      shellCompletionDir := s.shellCompletionDir;
      chains := s.chains;
      envs := s.envs;
      keys := s.keys;
      saved := s;
    }

    /** `save`: the whole registry is written out. */
    method Save()
      modifies this`saved
      ensures saved == Value()
    {
      saved := Value();
    }

    /** `get_active_env`: the first environment flagged active. */
    function GetActiveEnv(): (r: Result<Env, DeployError>)
      reads this
      ensures r.Ok? <==> exists i :: 0 <= i < |envs| && envs[i].isActive
      ensures r.Ok? ==> r.value.isActive
      ensures r.Ok? ==> exists i :: 0 <= i < |envs| && envs[i] == r.value && (forall j :: 0 <= j < i ==> !envs[j].isActive)
      ensures r.Err? ==> r.error == EnvNotFound
    {
      match ActiveIndex(envs)
      case Some(i) => Ok(envs[i])
      case None => Err(EnvNotFound)
    }

    /** `get_active_chain_info`: the chain registered under the active environment's label. */
    function GetActiveChainInfo(): (r: Result<ChainInfo, DeployError>)
      reads this
      ensures GetActiveEnv().Err? ==> r == Err(EnvNotFound)
      ensures GetActiveEnv().Ok? ==> (r.Ok? <==> GetActiveEnv().value.chainLabel in chains)
      ensures r.Ok? ==> r.value == chains[GetActiveEnv().value.chainLabel]
      ensures GetActiveEnv().Ok? && r.Err? ==> r.error == ChainConfigNotFound
    {
      match GetActiveEnv()
      case Err(e) => Err(e)
      case Ok(env) =>
        if env.chainLabel in chains then Ok(chains[env.chainLabel]) else Err(ChainConfigNotFound)
    }

    /** `get_active_key`: the first key named like the active environment's key. */
    function GetActiveKey(): (r: Result<UserKey, DeployError>)
      reads this
      ensures GetActiveEnv().Err? ==> r == Err(EnvNotFound)
      ensures GetActiveEnv().Ok? ==> (r.Ok? <==> exists k :: k in keys && k.name == GetActiveEnv().value.keyName)
      ensures r.Ok? ==> r.value in keys && r.value.name == GetActiveEnv().value.keyName
      ensures r.Ok? ==> FirstKeyNamed(keys, GetActiveEnv().value.keyName, r.value)
      ensures GetActiveEnv().Ok? && r.Err? ==> r.error == KeyNotFound(GetActiveEnv().value.keyName)
    {
      match GetActiveEnv()
      case Err(e) => Err(e)
      case Ok(env) =>
        match Seqs.Find(keys, (k: UserKey) => k.name == env.keyName)
        case Some(k) => Ok(k)
        case None => Err(KeyNotFound(env.keyName))
    }

    /** `get_contract`: the first entry of the active environment with that name. */
    function GetContract(name: string): (r: Result<ContractInfo, DeployError>)
      reads this
      ensures GetActiveEnv().Err? ==> r == Err(EnvNotFound)
      ensures GetActiveEnv().Ok? ==> (r.Ok? <==> exists c :: c in GetActiveEnv().value.contracts && c.name == name)
      ensures r.Ok? ==> r.value.name == name && Some(r.value) == Lookup(GetActiveEnv().value.contracts, name)
      ensures GetActiveEnv().Ok? && r.Err? ==> r.error == ContractNotFound(Some(name))
    {
      match GetActiveEnv()
      case Err(e) => Err(e)
      case Ok(env) =>
        match Lookup(env.contracts, name)
        case Some(c) => Ok(c)
        case None => Err(ContractNotFound(Some(name)))
    }

    /** `get_contract_mut`: the same lookup, handing out the entry's position for writing. */
    function GetContractSlot(name: string): (r: Result<Slot, DeployError>)
      reads this
      ensures r.Ok? <==> GetContract(name).Ok?
      ensures r.Err? ==> r.error == GetContract(name).error
      ensures r.Ok? ==> r.value.env < |envs| && r.value.entry < |envs[r.value.env].contracts|
      ensures r.Ok? ==> envs[r.value.env].contracts[r.value.entry] == GetContract(name).value
      ensures r.Ok? ==> Some(r.value.env) == ActiveIndex(envs)
      ensures r.Ok? ==> Some(r.value.entry) == ContractIndex(envs[r.value.env].contracts, name)
      ensures r.Ok? ==> GetContract(name).value == ActiveEntries(envs)[r.value.entry]
    {
      match ActiveIndex(envs)
      case None => Err(EnvNotFound)
      case Some(a) =>
        match ContractIndex(envs[a].contracts, name)
        case Some(k) => Ok(Slot(a, k))
        case None => Err(ContractNotFound(Some(name)))
    }

    /** `get_contract_addr`: the registered address of the named contract. */
    function GetContractAddr(name: string): (r: Result<string, DeployError>)
      reads this
      ensures GetContract(name).Err? ==> r == Err(GetContract(name).error)
      ensures GetContract(name).Ok? ==> (r.Ok? <==> GetContract(name).value.addr.Some?)
      ensures r.Ok? ==> GetContract(name).value.addr == Some(r.value)
      ensures GetContract(name).Ok? && r.Err? ==> r.error == AddrNotFound(Some(name))
    {
      match GetContract(name)
      case Err(e) => Err(e)
      case Ok(c) =>
        match c.addr
        case Some(a) => Ok(a)
        case None => Err(AddrNotFound(Some(name)))
    }

    /** Assignment through the reference `get_contract_mut` returned: that one entry becomes `c`. */
    method SetEntry(slot: Slot, c: ContractInfo)
      requires slot.env < |envs| && slot.entry < |envs[slot.env].contracts|
      modifies this`envs
      ensures |envs| == |old(envs)|
      ensures envs == old(envs)[slot.env := old(envs)[slot.env].(contracts := old(envs)[slot.env].contracts[slot.entry := c])]
    {
      var e := envs[slot.env];
      envs := envs[slot.env := e.(contracts := e.contracts[slot.entry := c])];
    }

    /** `add_chain_from`: a new label is inserted; an existing one is refused and nothing changes. */
    method AddChainFrom(chainLabel: string, info: ChainInfo) returns (r: Result<ChainInfo, DeployError>)
      modifies this`chains
      ensures chainLabel in old(chains) ==> r == Err(ChainAlreadyExists) && chains == old(chains)
      ensures chainLabel !in old(chains) ==> r == Ok(info) && chains == old(chains)[chainLabel := info]
    {
      if chainLabel in chains {
        return Err(ChainAlreadyExists);
      }
      chains := chains[chainLabel := info];
      return Ok(info);
    }

    /**
     * `add_contract_from`: in the active environment, the first entry with the
     * new entry's name is replaced, or the entry is appended; no other
     * environment changes.
     */
    method AddContractFrom(c: ContractInfo) returns (r: Result<ContractInfo, DeployError>)
      modifies this`envs
      ensures ActiveIndex(old(envs)).None? ==> r == Err(EnvNotFound) && envs == old(envs)
      ensures ActiveIndex(old(envs)).Some? ==> r == Ok(c)
      ensures ActiveIndex(old(envs)).Some? ==>
        var a := ActiveIndex(old(envs)).value;
        envs == old(envs)[a := old(envs)[a].(contracts := Upsert(old(envs)[a].contracts, c))]
    {
      match ActiveIndex(envs)
      case None =>
        return Err(EnvNotFound);
      case Some(a) =>
        var e := envs[a];
        envs := envs[a := e.(contracts := Upsert(e.contracts, c))];
        return Ok(c);
    }

    /** `add_key_from`: a key whose name is already used is refused; otherwise it is appended. */
    method AddKeyFrom(k: UserKey) returns (r: Result<UserKey, DeployError>)
      modifies this`keys
      ensures (exists j :: 0 <= j < |old(keys)| && old(keys)[j].name == k.name) ==>
        r == Err(KeyAlreadyExists) && keys == old(keys)
      ensures (forall j :: 0 <= j < |old(keys)| ==> old(keys)[j].name != k.name) ==>
        r == Ok(k) && keys == old(keys) + [k]
    {
      var i := 0;
      while i < |keys|
        invariant 0 <= i <= |keys|
        invariant forall j :: 0 <= j < i ==> keys[j].name != k.name
      {
        if keys[i].name == k.name {
          return Err(KeyAlreadyExists);
        }
        i := i + 1;
      }
      keys := keys + [k];
      return Ok(k);
    }

    /**
     * `change_env`: the user picks one of the environments; each environment
     * is then active exactly when it equals the pick.
     */
    method ChangeEnv(answer: Env) returns (r: Result<(), DeployError>)
      modifies this`envs
      ensures answer !in old(envs) ==> r == Err(PromptFailed) && envs == old(envs)
      ensures answer in old(envs) ==> r == Ok(()) && envs == Activate(old(envs), answer)
    {
      var picked := Select(envs, answer);
      if picked.Err? {
        return Err(picked.error);
      }
      var env := picked.value;
      var i := 0;
      while i < |envs|
        invariant 0 <= i <= |envs| == |old(envs)|
        invariant envs[..i] == Activate(old(envs), env)[..i]
        invariant envs[i..] == old(envs)[i..]
      {
        var x := envs[i];
        assert x == old(envs)[i];
        envs := envs[i := x.(isActive := x == env)];
        i := i + 1;
      }
      return Ok(());
    }

    /**
     * `add_env`, with its three prompts as parameters: the id is refused if
     * already used; the chain and the key must be picked among the registered
     * ones; the new environment is appended active with no contracts; when it
     * is not the only one, `change_env` then asks which one to activate.
     */
    method AddEnv(envId: string, chainAnswer: string, keyAnswer: string, activeAnswer: Env)
      returns (r: Result<Env, DeployError>)
      modifies this`envs
      ensures !FreshId(old(envs), envId) ==> r == Err(EnvAlreadyExists) && envs == old(envs)
      ensures FreshId(old(envs), envId) && !(chainAnswer in chains && HasKey(keys, keyAnswer)) ==>
        r == Err(PromptFailed) && envs == old(envs)
      ensures FreshId(old(envs), envId) && chainAnswer in chains && HasKey(keys, keyAnswer) ==>
        var pushed := old(envs) + [Env(true, envId, chainAnswer, [], keyAnswer)];
        if |pushed| == 1 then r == Ok(pushed[0]) && envs == pushed
        else if activeAnswer in pushed then envs == Activate(pushed, activeAnswer) && r == Ok(envs[|envs| - 1])
        else r == Err(PromptFailed) && envs == pushed
    {
      var i := 0;
      while i < |envs|
        invariant 0 <= i <= |envs|
        invariant forall j :: 0 <= j < i ==> envs[j].envId != envId
      {
        if envs[i].envId == envId {
          return Err(EnvAlreadyExists);
        }
        i := i + 1;
      }
      if chainAnswer !in chains {
        return Err(PromptFailed);
      }
      var ks := keys;
      var names := seq(|ks|, j requires 0 <= j < |ks| => ks[j].name);
      var keyName := Select(names, keyAnswer);
      if keyName.Err? {
        assert !HasKey(keys, keyAnswer) by {
          forall j | 0 <= j < |keys| ensures keys[j].name != keyAnswer {
            assert names[j] == keys[j].name;
          }
        }
        return Err(keyName.error);
      }
      assert HasKey(keys, keyAnswer) by {
        var j :| 0 <= j < |names| && names[j] == keyAnswer;
        assert keys[j].name == keyAnswer;
      }
      envs := envs + [Env(true, envId, chainAnswer, [], keyName.value)];
      if |envs| > 1 {
        var changed := ChangeEnv(activeAnswer);
        if changed.Err? {
          return Err(changed.error);
        }
      }
      return Ok(envs[|envs| - 1]);
    }
  }
}
