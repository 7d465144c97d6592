/**
 * The oldest registry (`Config` of src/file.rs). Chains are a list identified
 * by `chain_id`; an environment names its chain by that id (held in the
 * `chainLabel` field of `Env`). Unlike the later layouts, the mutable lookups
 * never fail for want of an active environment: `get_active_env_mut` creates
 * one through the `add_env` prompts, and `get_active_chain_info` asks for a
 * chain when the active environment's is not listed. The answers to those
 * prompts are parameters.
 */
module LegacyRegistry {
  import opened Wrappers
  import opened Types
  import opened Environments

  /**
   * `ChainInfo` of this layout, without its floating-point gas fields. The
   * struct declares `grpc_endpoint` as a plain string (src/file.rs:53), but
   * `msg_contract` (src/wasm_msg.rs:38) reads it as optional; the field
   * follows that reader, so a chain may lack a gRPC endpoint.
   */
  datatype LegacyChain = LegacyChain(
    denom: string,
    chainId: string,
    rpcEndpoint: string,
    grpcEndpoint: Option<string>,
    prefix: string,
    derivationPath: string)

  /** Everything `save` serialises. */
  datatype Snapshot = Snapshot(shellCompletionDir: Option<Path>, chains: seq<LegacyChain>, envs: seq<Env>, keys: seq<UserKey>)

  /**
   * What `add_env` takes from outside: the answers to its prompts (label,
   * chain, key, and the env to activate when there are several), and
   * `isChainId`, the verdict of the Tendermint `chain::Id` conversion the
   * picked chain's id goes through (a foreign parser, so a parameter here).
   */
  datatype EnvAnswers = EnvAnswers(envId: string, chain: LegacyChain, key: UserKey, active: Env, isChainId: string -> bool)

  /** The panic of `unwrap` on a chain id that does not convert. */
  const ChainIdPanic := "called `Result::unwrap()` on an `Err` value"

  /** The outcome of an operation that may create an environment: an index into the environments, and the environments after it. */
  datatype EnvEdit = EnvEdit(result: Result<nat, DeployError>, envs: seq<Env>)

  /** Some chain has the id `chainId`. */
  predicate HasChain(chains: seq<LegacyChain>, chainId: string) {
    exists j :: 0 <= j < |chains| && chains[j].chainId == chainId
  }

  /**
   * `add_env`: a used id is refused; the chain and the key are picked among
   * the registered ones; the chain's id is converted to a `chain::Id`, which
   * panics when it does not parse; the new environment is appended active
   * with no contracts, and when it is not the only one `change_env` asks
   * which environment to activate. On success the result is the new
   * environment's index, the last one.
   */
  function AddedEnv(envs: seq<Env>, chains: seq<LegacyChain>, keys: seq<UserKey>, a: EnvAnswers): (e: EnvEdit)
    ensures !FreshId(envs, a.envId) ==> e == EnvEdit(Err(EnvAlreadyExists), envs)
    ensures FreshId(envs, a.envId) && a.chain in chains && a.key in keys && !a.isChainId(a.chain.chainId) ==>
      e == EnvEdit(Err(Panic(ChainIdPanic)), envs)
    ensures e.result.Ok? <==> (FreshId(envs, a.envId) && a.chain in chains && a.key in keys && a.isChainId(a.chain.chainId) &&
      (|envs| == 0 || a.active in envs + [NewEnv(a)]))
    ensures e.result.Ok? ==> e.result.value == |envs| && |e.envs| == |envs| + 1
    ensures e.result.Ok? ==> forall j :: 0 <= j < |envs| ==> e.envs[j] == envs[j].(isActive := e.envs[j].isActive)
    ensures e.result.Ok? ==> e.envs[|envs|] == NewEnv(a).(isActive := e.envs[|envs|].isActive)
  {
    if !FreshId(envs, a.envId) then EnvEdit(Err(EnvAlreadyExists), envs)
    else if a.chain !in chains || a.key !in keys then EnvEdit(Err(PromptFailed), envs)
    else if !a.isChainId(a.chain.chainId) then EnvEdit(Err(Panic(ChainIdPanic)), envs)
    else
      var pushed := envs + [NewEnv(a)];
      if |pushed| == 1 then EnvEdit(Ok(0), pushed)
      else if a.active in pushed then EnvEdit(Ok(|envs|), Activate(pushed, a.active))
      else EnvEdit(Err(PromptFailed), pushed)
  }

  /** The environment `add_env` appends. */
  function NewEnv(a: EnvAnswers): Env {
    Env(true, a.envId, a.chain.chainId, [], a.key.name)
  }

  /** `get_active_env_mut`: the first active environment, or else the one `add_env` creates. */
  function ActiveEnvMut(envs: seq<Env>, chains: seq<LegacyChain>, keys: seq<UserKey>, a: EnvAnswers): (e: EnvEdit)
    ensures ActiveIndex(envs).Some? ==> e == EnvEdit(Ok(ActiveIndex(envs).value), envs)
    ensures ActiveIndex(envs).None? ==> e == AddedEnv(envs, chains, keys, a)
    ensures e.result.Ok? ==> e.result.value < |e.envs|
  {
    match ActiveIndex(envs)
    case Some(i) => EnvEdit(Ok(i), envs)
    case None => AddedEnv(envs, chains, keys, a)
  }

  /** The outcome of `get_active_chain_info`: the chain, and the chains and environments after it. */
  datatype ChainEdit = ChainEdit(result: Result<LegacyChain, DeployError>, chains: seq<LegacyChain>, envs: seq<Env>)

  /**
   * `get_active_chain_info`: the listed chain with the id of the environment
   * `get_active_env_mut` settles on; when there is none, the chain the user
   * enters is added instead (and returned whatever its id).
   */
  function ActiveChainInfo(chains: seq<LegacyChain>, envs: seq<Env>, keys: seq<UserKey>, a: EnvAnswers, entered: Option<LegacyChain>): (e: ChainEdit)
    ensures e.envs == ActiveEnvMut(envs, chains, keys, a).envs
    ensures ActiveEnvMut(envs, chains, keys, a).result.Err? ==>
      e.result == Err(ActiveEnvMut(envs, chains, keys, a).result.error) && e.chains == chains
    ensures ActiveEnvMut(envs, chains, keys, a).result.Ok? ==>
      var id := e.envs[ActiveEnvMut(envs, chains, keys, a).result.value].chainLabel;
      if HasChain(chains, id) then
        e.chains == chains && e.result.Ok? && e.result.value.chainId == id &&
        Some(e.result.value) == Seqs.Find(chains, (c: LegacyChain) => c.chainId == id)
      else if entered.None? then e.result == Err(PromptFailed) && e.chains == chains
      else if HasChain(chains, entered.value.chainId) then e.result == Err(ChainAlreadyExists) && e.chains == chains
      else e.result == Ok(entered.value) && e.chains == chains + [entered.value]
  {
    var m := ActiveEnvMut(envs, chains, keys, a);
    match m.result
    case Err(err) => ChainEdit(Err(err), chains, m.envs)
    case Ok(i) =>
      var id := m.envs[i].chainLabel;
      match Seqs.Find(chains, (c: LegacyChain) => c.chainId == id)
      case Some(c) => ChainEdit(Ok(c), chains, m.envs)
      case None =>
        if entered.None? then ChainEdit(Err(PromptFailed), chains, m.envs)
        else if HasChain(chains, entered.value.chainId) then ChainEdit(Err(ChainAlreadyExists), chains, m.envs)
        else ChainEdit(Ok(entered.value), chains + [entered.value], m.envs)
  }

  /** `get_active_key`: the key named by the active environment (`get_active_env`, which does not create one). */
  function ActiveKey(envs: seq<Env>, keys: seq<UserKey>): (r: Result<UserKey, DeployError>)
    ensures ActiveIndex(envs).None? ==> r == Err(EnvNotFound)
    ensures ActiveIndex(envs).Some? ==> (r.Ok? <==> HasKey(keys, envs[ActiveIndex(envs).value].keyName))
    ensures r.Ok? ==> r.value in keys && r.value.name == envs[ActiveIndex(envs).value].keyName
    ensures r.Ok? ==> FirstKeyNamed(keys, envs[ActiveIndex(envs).value].keyName, r.value)
    ensures ActiveIndex(envs).Some? && r.Err? ==> r.error == KeyNotFound(envs[ActiveIndex(envs).value].keyName)
  {
    match ActiveIndex(envs)
    case None => Err(EnvNotFound)
    case Some(i) =>
      match Seqs.Find(keys, (k: UserKey) => k.name == envs[i].keyName)
      case Some(k) => Ok(k)
      case None => Err(KeyNotFound(envs[i].keyName))
  }

  /** `get_contract`: the entry named `name` in the environment `get_active_env_mut` settled on. */
  function FindContract(e: EnvEdit, name: string): (r: Result<Slot, DeployError>)
    requires e.result.Ok? ==> e.result.value < |e.envs|
    ensures e.result.Err? ==> r == Err(e.result.error)
    ensures e.result.Ok? ==> (r.Ok? <==> exists j :: 0 <= j < |e.envs[e.result.value].contracts| && e.envs[e.result.value].contracts[j].name == name)
    ensures r.Ok? ==> r.value.env == e.result.value && r.value.entry < |e.envs[r.value.env].contracts|
    ensures r.Ok? ==> Some(e.envs[r.value.env].contracts[r.value.entry]) == Lookup(e.envs[r.value.env].contracts, name)
    ensures r.Ok? ==> ContractIndex(e.envs[r.value.env].contracts, name) == Some(r.value.entry)
    ensures e.result.Ok? && r.Err? ==> r.error == ContractNotFound(None)
  {
    match e.result
    case Err(err) => Err(err)
    case Ok(i) =>
      match ContractIndex(e.envs[i].contracts, name)
      case Some(k) => Ok(Slot(i, k))
      case None => Err(ContractNotFound(None))
  }

  /** The environments after an assignment through the entry reference at `slot`. */
  function EntrySet(envs: seq<Env>, slot: Slot, c: ContractInfo): (r: seq<Env>)
    requires slot.env < |envs| && slot.entry < |envs[slot.env].contracts|
    ensures |r| == |envs| && |r[slot.env].contracts| == |envs[slot.env].contracts|
    ensures r[slot.env].contracts[slot.entry] == c
    ensures forall k :: 0 <= k < |envs| && k != slot.env ==> r[k] == envs[k]
    ensures forall j :: 0 <= j < |envs[slot.env].contracts| && j != slot.entry ==> r[slot.env].contracts[j] == envs[slot.env].contracts[j]
    ensures r[slot.env] == envs[slot.env].(contracts := r[slot.env].contracts)
  {
    envs[slot.env := envs[slot.env].(contracts := envs[slot.env].contracts[slot.entry := c])]
  }

  /**
   * `add_contract_from` on values: the environment `get_active_env_mut`
   * settles on gets the entry by name, replacing or appending, and every
   * other environment is untouched.
   */
  function ContractAdded(envs: seq<Env>, chains: seq<LegacyChain>, keys: seq<UserKey>, a: EnvAnswers, c: ContractInfo): (e: EnvEdit)
    ensures e.result == ActiveEnvMut(envs, chains, keys, a).result
    ensures e.result.Err? ==> e.envs == ActiveEnvMut(envs, chains, keys, a).envs
    ensures e.result.Ok? ==>
      var m := ActiveEnvMut(envs, chains, keys, a).envs;
      var i := e.result.value;
      && i < |m| && e.envs == m[i := m[i].(contracts := Upsert(m[i].contracts, c))]
  {
    var m := ActiveEnvMut(envs, chains, keys, a);
    match m.result
    case Err(_) => m
    case Ok(i) => EnvEdit(Ok(i), m.envs[i := m.envs[i].(contracts := Upsert(m.envs[i].contracts, c))])
  }

  class Config {
    var shellCompletionDir: Option<Path>
    var chains: seq<LegacyChain>
    var envs: seq<Env>
    var keys: seq<UserKey>
    /** The registry as the last `save` wrote it. */
    var saved: Snapshot

    function Value(): Snapshot
      reads this
    {
      Snapshot(shellCompletionDir, chains, envs, keys)
    }

    /** `Config::init`: no chains, environments or keys. */
    constructor Init()
      ensures shellCompletionDir == None && chains == [] && envs == [] && keys == []
      ensures saved == Value()
    {
      shellCompletionDir := None;
      chains := [];
      envs := [];
      keys := [];
      saved := Snapshot(None, [], [], []);
    }

    /** `save`: the whole registry is written out. */
    method Save()
      modifies this`saved
      ensures saved == Value()
    {
      saved := Value();
    }

    /** `get_active_env`: the first environment flagged active. */
    function GetActiveEnv(): (r: Result<Env, DeployError>)
      reads this
      ensures ActiveIndex(envs).None? <==> r == Err(EnvNotFound)
      ensures r.Ok? ==> r.value == envs[ActiveIndex(envs).value] && r.value.isActive
    {
      match ActiveIndex(envs)
      case Some(i) => Ok(envs[i])
      case None => Err(EnvNotFound)
    }

    /** `change_env`: each environment is active exactly when it equals the pick. */
    method ChangeEnv(answer: Env) returns (r: Result<(), DeployError>)
      modifies this`envs
      ensures answer !in old(envs) ==> r == Err(PromptFailed) && envs == old(envs)
      ensures answer in old(envs) ==> r == Ok(()) && envs == Activate(old(envs), answer)
    {
      var picked := Select(envs, answer);
      if picked.Err? {
        return Err(picked.error);
      }
      var i := 0;
      while i < |envs|
        invariant 0 <= i <= |envs| == |old(envs)|
        invariant envs[..i] == Activate(old(envs), answer)[..i]
        invariant envs[i..] == old(envs)[i..]
      {
        var x := envs[i];
        assert x == old(envs)[i];
        envs := envs[i := x.(isActive := x == answer)];
        i := i + 1;
      }
      return Ok(());
    }

    /** `add_env`, with its prompts answered by `a`. */
    method AddEnv(a: EnvAnswers) returns (r: Result<nat, DeployError>)
      modifies this`envs
      ensures EnvEdit(r, envs) == AddedEnv(old(envs), chains, keys, a)
    {
      var i := 0;
      while i < |envs|
        invariant 0 <= i <= |envs|
        invariant forall j :: 0 <= j < i ==> envs[j].envId != a.envId
      {
        if envs[i].envId == a.envId {
          return Err(EnvAlreadyExists);
        }
        i := i + 1;
      }
      var chain := Select(chains, a.chain);
      if chain.Err? {
        return Err(chain.error);
      }
      var key := Select(keys, a.key);
      if key.Err? {
        return Err(key.error);
      }
      if !a.isChainId(chain.value.chainId) {
        return Err(Panic(ChainIdPanic));
      }
      envs := envs + [Env(true, a.envId, chain.value.chainId, [], key.value.name)];
      if |envs| > 1 {
        var changed := ChangeEnv(a.active);
        if changed.Err? {
          return Err(changed.error);
        }
      }
      return Ok(|envs| - 1);
    }

    /** `get_active_env_mut`: the active environment's index, creating an environment when none is active. */
    method GetActiveEnvMut(a: EnvAnswers) returns (r: Result<nat, DeployError>)
      modifies this`envs
      ensures EnvEdit(r, envs) == ActiveEnvMut(old(envs), chains, keys, a)
    {
      match ActiveIndex(envs)
      case Some(i) =>
        return Ok(i);
      case None =>
        r := AddEnv(a);
    }

    /** `get_active_chain_info`, with the `add_env` prompts answered by `a` and the chain prompt by `entered`. */
    method GetActiveChainInfo(a: EnvAnswers, entered: Option<LegacyChain>) returns (r: Result<LegacyChain, DeployError>)
      modifies this`envs, this`chains
      ensures ChainEdit(r, chains, envs) == ActiveChainInfo(old(chains), old(envs), keys, a, entered)
    {
      var listed := chains;
      var idx := GetActiveEnvMut(a);
      if idx.Err? {
        return Err(idx.error);
      }
      var id := envs[idx.value].chainLabel;
      match Seqs.Find(listed, (c: LegacyChain) => c.chainId == id)
      case Some(c) =>
        return Ok(c);
      case None =>
        if entered.None? {
          return Err(PromptFailed);
        }
        r := AddChainFrom(entered.value);
    }

    /** `add_chain_from`: a chain whose id is already listed is refused; otherwise it is appended. */
    method AddChainFrom(info: LegacyChain) returns (r: Result<LegacyChain, DeployError>)
      modifies this`chains
      ensures HasChain(old(chains), info.chainId) ==> r == Err(ChainAlreadyExists) && chains == old(chains)
      ensures !HasChain(old(chains), info.chainId) ==> r == Ok(info) && chains == old(chains) + [info]
    {
      var i := 0;
      while i < |chains|
        invariant 0 <= i <= |chains|
        invariant forall j :: 0 <= j < i ==> chains[j].chainId != info.chainId
      {
        if chains[i].chainId == info.chainId {
          return Err(ChainAlreadyExists);
        }
        i := i + 1;
      }
      chains := chains + [info];
      return Ok(info);
    }

    /**
     * `add_contract_from`: in the environment `get_active_env_mut` settles on,
     * the first entry with the new entry's name is replaced, or the entry is
     * appended.
     */
    method AddContractFrom(c: ContractInfo, a: EnvAnswers) returns (r: Result<ContractInfo, DeployError>)
      modifies this`envs
      ensures envs == ContractAdded(old(envs), chains, keys, a, c).envs
      ensures r == (match ContractAdded(old(envs), chains, keys, a, c).result
                    case Ok(_) => Ok(c)
                    case Err(err) => Err(err))
    {
      var idx := GetActiveEnvMut(a);
      if idx.Err? {
        return Err(idx.error);
      }
      var i := idx.value;
      var env := envs[i];
      envs := envs[i := env.(contracts := Upsert(env.contracts, c))];
      return Ok(c);
    }

    /** `get_contract`: where the named entry of the environment `get_active_env_mut` settles on is. */
    method GetContract(name: string, a: EnvAnswers) returns (r: Result<Slot, DeployError>)
      modifies this`envs
      ensures envs == ActiveEnvMut(old(envs), chains, keys, a).envs
      ensures r == FindContract(ActiveEnvMut(old(envs), chains, keys, a), name)
      ensures r.Ok? ==> r.value.env < |envs| && r.value.entry < |envs[r.value.env].contracts|
    {
      var idx := GetActiveEnvMut(a);
      if idx.Err? {
        return Err(idx.error);
      }
      var i := idx.value;
      match ContractIndex(envs[i].contracts, name)
      case Some(k) => return Ok(Slot(i, k));
      case None => return Err(ContractNotFound(None));
    }

    /** `get_contract_addr_mut`: the named entry's address; an entry without one is `NoAddr`. */
    method GetContractAddrMut(name: string, a: EnvAnswers) returns (r: Result<string, DeployError>)
      modifies this`envs
      ensures envs == ActiveEnvMut(old(envs), chains, keys, a).envs
      ensures var found := FindContract(ActiveEnvMut(old(envs), chains, keys, a), name);
        && (found.Err? ==> r == Err(found.error))
        && (found.Ok? ==>
             var entry := envs[found.value.env].contracts[found.value.entry];
             r == if entry.addr.Some? then Ok(entry.addr.value) else Err(NoAddr))
    {
      var slot := GetContract(name, a);
      if slot.Err? {
        return Err(slot.error);
      }
      var entry := envs[slot.value.env].contracts[slot.value.entry];
      if entry.addr.None? {
        return Err(NoAddr);
      }
      return Ok(entry.addr.value);
    }

    /** `_get_code_id`: the named entry's code id; an entry without one is `CodeIdNotFound`. */
    method GetCodeId(name: string, a: EnvAnswers) returns (r: Result<u64, DeployError>)
      modifies this`envs
      ensures envs == ActiveEnvMut(old(envs), chains, keys, a).envs
      ensures var found := FindContract(ActiveEnvMut(old(envs), chains, keys, a), name);
        && (found.Err? ==> r == Err(found.error))
        && (found.Ok? ==>
             var entry := envs[found.value.env].contracts[found.value.entry];
             r == if entry.codeId.Some? then Ok(entry.codeId.value) else Err(CodeIdNotFound))
    {
      var slot := GetContract(name, a);
      if slot.Err? {
        return Err(slot.error);
      }
      var entry := envs[slot.value.env].contracts[slot.value.entry];
      if entry.codeId.None? {
        return Err(CodeIdNotFound);
      }
      return Ok(entry.codeId.value);
    }

    /** Assignment through the reference `get_contract` returned: that one entry becomes `c`. */
    method SetEntry(slot: Slot, c: ContractInfo)
      requires slot.env < |envs| && slot.entry < |envs[slot.env].contracts|
      modifies this`envs
      ensures envs == EntrySet(old(envs), slot, c)
    {
      var e := envs[slot.env];
      envs := envs[slot.env := e.(contracts := e.contracts[slot.entry := c])];
    }

    /** `add_key_from`: a key whose name is already used is refused; otherwise it is appended. */
    method AddKeyFrom(k: UserKey) returns (r: Result<UserKey, DeployError>)
      modifies this`keys
      ensures HasKey(old(keys), k.name) ==> r == Err(KeyAlreadyExists) && keys == old(keys)
      ensures !HasKey(old(keys), k.name) ==> r == Ok(k) && keys == old(keys) + [k]
    {
      var i := 0;
      while i < |keys|
        invariant 0 <= i <= |keys|
        invariant forall j :: 0 <= j < i ==> keys[j].name != k.name
      {
        if keys[i].name == k.name {
          return Err(KeyAlreadyExists);
        }
        i := i + 1;
      }
      keys := keys + [k];
      return Ok(k);
    }
  }

  // ----- Properties of the environment edits -----

  /** `add_env` keeps environment ids distinct, whatever the answers. */
  lemma AddedEnvKeepsIdsDistinct(envs: seq<Env>, chains: seq<LegacyChain>, keys: seq<UserKey>, a: EnvAnswers)
    requires DistinctIds(envs)
    ensures DistinctIds(AddedEnv(envs, chains, keys, a).envs)
  {
    if FreshId(envs, a.envId) {
      AppendFreshKeepsIdsDistinct(envs, NewEnv(a), a.active);
    }
  }

  /**
   * When no environment was active, the one `get_active_env_mut` hands back
   * is the new one, but the activation prompt may have made an older
   * environment the active one: writes through the returned reference then
   * land in an environment that `get_active_env` does not report.
   */
  lemma ActiveEnvMutMayMissActive(envs: seq<Env>, chains: seq<LegacyChain>, keys: seq<UserKey>, a: EnvAnswers)
    requires ActiveIndex(envs).None? && DistinctIds(envs)
    requires FreshId(envs, a.envId) && a.chain in chains && a.key in keys && a.isChainId(a.chain.chainId) && a.active in envs
    ensures ActiveEnvMut(envs, chains, keys, a).result == Ok(|envs|)
    ensures !ActiveEnvMut(envs, chains, keys, a).envs[|envs|].isActive
    ensures ActiveIndex(ActiveEnvMut(envs, chains, keys, a).envs) != Some(|envs|)
  {
    var pushed := envs + [NewEnv(a)];
    var k :| 0 <= k < |envs| && envs[k] == a.active;
    assert pushed[k] == a.active;
    assert pushed[|envs|] != a.active by {
      assert pushed[|envs|].envId == a.envId != envs[k].envId;
    }
  }

  /** When the activation prompt picks the new environment (or it is the only one), it is the active one afterwards. */
  lemma ActiveEnvMutFindsNewWhenPicked(envs: seq<Env>, chains: seq<LegacyChain>, keys: seq<UserKey>, a: EnvAnswers)
    requires ActiveIndex(envs).None?
    requires FreshId(envs, a.envId) && a.chain in chains && a.key in keys && a.isChainId(a.chain.chainId)
    requires |envs| == 0 || a.active == NewEnv(a)
    ensures ActiveEnvMut(envs, chains, keys, a).result == Ok(|envs|)
    ensures ActiveIndex(ActiveEnvMut(envs, chains, keys, a).envs) == Some(|envs|)
  {
    var e := ActiveEnvMut(envs, chains, keys, a);
    var pushed := envs + [NewEnv(a)];
    assert pushed[|envs|] == NewEnv(a);
    forall j | 0 <= j < |envs| ensures !e.envs[j].isActive {
      assert pushed[j] == envs[j];
      assert envs[j].envId != a.envId;
    }
    assert e.envs[|envs|].isActive;
  }

  /**
   * Once `get_active_env_mut` succeeds some environment is active (though
   * not necessarily the one it handed back), so every later call finds it
   * and changes nothing.
   */
  lemma ActiveEnvMutLeavesActive(envs: seq<Env>, chains: seq<LegacyChain>, keys: seq<UserKey>, a: EnvAnswers)
    requires ActiveEnvMut(envs, chains, keys, a).result.Ok?
    ensures var m := ActiveEnvMut(envs, chains, keys, a);
      ActiveIndex(m.envs).Some? && ActiveEnvMut(m.envs, chains, keys, a) == EnvEdit(Ok(ActiveIndex(m.envs).value), m.envs)
  {
    if ActiveIndex(envs).None? {
      var pushed := envs + [NewEnv(a)];
      if |pushed| == 1 {
        assert pushed[0].isActive;
      } else {
        var k :| 0 <= k < |pushed| && pushed[k] == a.active;
        assert Activate(pushed, a.active)[k].isActive;
      }
    }
  }

  /** Once `get_active_chain_info` succeeds some environment is active. */
  lemma ChainInfoLeavesActive(chains: seq<LegacyChain>, envs: seq<Env>, keys: seq<UserKey>, a: EnvAnswers, entered: Option<LegacyChain>, later: seq<LegacyChain>)
    requires ActiveChainInfo(chains, envs, keys, a, entered).result.Ok?
    ensures var e := ActiveChainInfo(chains, envs, keys, a, entered);
      ActiveIndex(e.envs).Some? && ActiveEnvMut(e.envs, later, keys, a) == EnvEdit(Ok(ActiveIndex(e.envs).value), e.envs)
  {
    ActiveEnvMutLeavesActive(envs, chains, keys, a);
  }
}
