/**
 * The per-contract commands of src/contract.rs: `execute_store`,
 * `execute_instantiate`, `execute_migrate`, `execute_set_config` and
 * `execute_set_up`. Each works on one contract, sends one transaction per
 * request, and reads and edits the registry of src/file.rs in the order of
 * its statements; only StoreCode and Instantiate save it.
 *
 * Each command is specified by a function on values (`StoreRun`,
 * `InstantiateRun`, ...) giving its `Outcome`: the result, the chains and
 * environments in memory afterwards, the transactions it sent, and whether it
 * ended with a save.
 */
module LegacyCommands {
  import opened Wrappers
  import opened Types
  import opened Environments
  import opened Substitution
  import opened ChainClient
  import opened LegacyRegistry
  import opened LegacyContract

  /**
   * What a command meets outside the registry: the prompts' answers, the
   * disk, the RPC endpoints the client constructor accepts, address parsing,
   * and the chain's answers.
   */
  datatype World = World(
    a: EnvAnswers,
    entered: Option<LegacyChain>,
    fs: FileSystem,
    accepted: set<string>,
    isAddress: string -> bool,
    answer: (nat, Batch) -> Reply)

  datatype Outcome = Outcome(result: Result<(), DeployError>, chains: seq<LegacyChain>, envs: seq<Env>, sent: seq<Batch>, saved: bool)

  /** A failure: what was edited in memory and sent so far stays so, and nothing is saved. */
  function Fail(err: DeployError, chains: seq<LegacyChain>, envs: seq<Env>, sent: seq<Batch>): Outcome {
    Outcome(Err(err), chains, envs, sent, false)
  }

  /** Extending a log that extends `sent0` keeps it extending `sent0`, and its new part is the old new part followed by the latest. */
  lemma PrefixStep(pre: seq<Batch>, sent0: seq<Batch>, sent: seq<Batch>, after: seq<Batch>)
    requires |sent0| <= |sent| <= |after| && sent[..|sent0|] == sent0 && after[..|sent|] == sent
    ensures after[..|sent0|] == sent0 && (pre + sent[|sent0|..]) + after[|sent|..] == pre + after[|sent0|..]
  {
    assert after[..|sent0|] == after[..|sent|][..|sent0|];
    assert after[|sent0|..] == sent[|sent0|..] + after[|sent|..];
  }

  /** The label `CosmWasmClient::instantiate` gives every contract. */
  const Label := "cosm-orc"

  /** Where a command's contract sits after the chain and client checks: the slot or the error, and the chains and environments by then. */
  datatype Resolution = Resolution(result: Result<Slot, DeployError>, chains: seq<LegacyChain>, envs: seq<Env>)

  /**
   * The lookup the commands other than `execute_store` share:
   * `get_active_chain_info`, building a client for its RPC endpoint, then
   * `get_contract` by display form in the active environment.
   */
  function Resolve(chains: seq<LegacyChain>, envs: seq<Env>, keys: seq<UserKey>, w: World, display: string): (l: Resolution)
    ensures l.result.Ok? ==> l.result.value.env < |l.envs| && l.result.value.entry < |l.envs[l.result.value.env].contracts|
    ensures l.result.Ok? ==> l.envs[l.result.value.env].contracts[l.result.value.entry].name == display
    ensures l.result.Ok? ==> ActiveIndex(l.envs) == Some(l.result.value.env)
    ensures ActiveIndex(envs).Some? ==> l.envs == envs
  {
    var ce := ActiveChainInfo(chains, envs, keys, w.a, w.entered);
    if ce.result.Err? then Resolution(Err(ce.result.error), ce.chains, ce.envs)
    else if ce.result.value.rpcEndpoint !in w.accepted then Resolution(Err(Chain(Transport(ce.result.value.rpcEndpoint))), ce.chains, ce.envs)
    else
      ChainInfoLeavesActive(chains, envs, keys, w.a, w.entered, ce.chains);
      var m := ActiveEnvMut(ce.envs, ce.chains, keys, w.a);
      Resolution(FindContract(m, display), ce.chains, m.envs)
  }

  // ----- execute_store -----

  /**
   * `execute_store`: chain, client, artifact, key; one store transaction;
   * the first code id of the answer goes onto the entry `get_contract` finds
   * by display form (its address kept), or a new entry named after the
   * contract is added without an address; then the registry is saved.
   */
  function StoreRun(chains: seq<LegacyChain>, envs: seq<Env>, keys: seq<UserKey>, w: World, base: nat, c: Descriptor): (o: Outcome)
    ensures o.result.Ok? ==> o.saved && w.fs.IsFile(ArtifactPath(c)) && o.sent == [StoreBatch([StoreRequest(w.fs.files[ArtifactPath(c)])])]
    ensures !o.result.Ok? ==> !o.saved && |o.sent| <= 1
  {
    var ce := ActiveChainInfo(chains, envs, keys, w.a, w.entered);
    if ce.result.Err? then Fail(ce.result.error, ce.chains, ce.envs, [])
    else if ce.result.value.rpcEndpoint !in w.accepted then Fail(Chain(Transport(ce.result.value.rpcEndpoint)), ce.chains, ce.envs, [])
    else StoreUploaded(ce.chains, ce.envs, keys, w, base, c)
  }

  /** `execute_store` once the client is up: the artifact, the key, the store transaction, the code id, the save. */
  function StoreUploaded(chains: seq<LegacyChain>, envs: seq<Env>, keys: seq<UserKey>, w: World, base: nat, c: Descriptor): (o: Outcome)
    ensures o.chains == chains
    ensures o.result.Ok? ==> o.saved && w.fs.IsFile(ArtifactPath(c)) && o.sent == [StoreBatch([StoreRequest(w.fs.files[ArtifactPath(c)])])]
    ensures !o.result.Ok? ==> !o.saved && |o.sent| <= 1
  {
    if !w.fs.IsFile(ArtifactPath(c)) then Fail(Io(ArtifactPath(c)), chains, envs, [])
    else if ActiveKey(envs, keys).Err? then Fail(ActiveKey(envs, keys).error, chains, envs, [])
    else
      var b := StoreBatch([StoreRequest(w.fs.files[ArtifactPath(c)])]);
      var reply := w.answer(base, b);
      if reply.Rejected? then Fail(Chain(reply.error), chains, envs, [b])
      else if |reply.codeIds| == 0 then Fail(Panic(UnwrapPanic), chains, envs, [b])
      else Outcome(Ok(()), chains, StoreRecorded(envs, chains, keys, w.a, c, reply.codeIds[0]), [b], true)
  }

  /** What `execute_store` does with the new code id: set it on the registered entry, or add an entry that has only it. */
  function StoreRecorded(envs: seq<Env>, chains: seq<LegacyChain>, keys: seq<UserKey>, a: EnvAnswers, c: Descriptor, id: u64): seq<Env> {
    var m := ActiveEnvMut(envs, chains, keys, a);
    var found := FindContract(m, c.display);
    if found.Ok? then
      var entry := m.envs[found.value.env].contracts[found.value.entry];
      EntrySet(m.envs, found.value, entry.(codeId := Some(id)))
    else
      // When an environment is active, `add_contract_from` cannot fail.
      ContractAdded(m.envs, chains, keys, a, ContractInfo(c.name, None, Some(id))).envs
  }

  // ----- execute_instantiate -----

  /**
   * `execute_instantiate`: message, substitution against the active
   * environment, key, chain, client, registered entry and its code id; one
   * instantiate transaction whose address is set on the entry; then each
   * external in turn; then a save.
   */
  function InstantiateRun(chains: seq<LegacyChain>, envs: seq<Env>, keys: seq<UserKey>, w: World, base: nat, c: Descriptor): (o: Outcome)
    ensures o.saved ==> o.result.Ok?
    ensures o.result.Ok? ==> o.saved && c.externals.Ok? && |o.sent| == 1 + |c.externals.value|
  {
    if c.instantiateMsg.Err? then Fail(c.instantiateMsg.error, chains, envs, [])
    else if ActiveIndex(envs).None? then Fail(EnvNotFound, chains, envs, [])
    else
      var msg := Rewritten(c.instantiateMsg.value, envs[ActiveIndex(envs).value].contracts);
      if msg.Err? then Fail(msg.error, chains, envs, [])
      else if ActiveKey(envs, keys).Err? then Fail(ActiveKey(envs, keys).error, chains, envs, [])
      else LocatedRun(chains, envs, keys, w, base, c, msg.value)
  }

  /** `execute_instantiate` from the chain lookup on. */
  function LocatedRun(chains: seq<LegacyChain>, envs: seq<Env>, keys: seq<UserKey>, w: World, base: nat, c: Descriptor, msg: Json): (o: Outcome)
    ensures o.saved ==> o.result.Ok?
    ensures o.result.Ok? ==> o.saved && c.externals.Ok? && |o.sent| == 1 + |c.externals.value|
  {
    var l := Resolve(chains, envs, keys, w, c.display);
    if l.result.Err? then Fail(l.result.error, l.chains, l.envs, [])
    else OwnerRun(l.chains, l.envs, keys, w, base, c, msg, l.result.value)
  }

  /**
   * `execute_instantiate` once the entry is found at `slot`: its code id,
   * the admin; one instantiate transaction, whose address is set on the
   * entry; then the externals and the save.
   */
  function OwnerRun(chains: seq<LegacyChain>, envs: seq<Env>, keys: seq<UserKey>, w: World, base: nat, c: Descriptor, msg: Json, slot: Slot): (o: Outcome)
    requires slot.env < |envs| && slot.entry < |envs[slot.env].contracts|
    ensures o.chains == chains
    ensures o.saved ==> o.result.Ok?
    ensures o.result.Ok? ==> o.saved && c.externals.Ok? && |o.sent| == 1 + |c.externals.value|
  {
    var entry := envs[slot.env].contracts[slot.entry];
    if entry.codeId.None? then Fail(CodeIdNotFound, chains, envs, [])
    else if !w.isAddress(c.admin) then Fail(AdminAddress, chains, envs, [])
    else
      var b := InstantiateBatch([InstantiateRequest(entry.codeId.value, msg, Label, Some(c.admin))]);
      var reply := w.answer(base, b);
      if reply.Rejected? then Fail(Chain(reply.error), chains, envs, [b])
      else if |reply.addresses| == 0 then Fail(Panic(UnwrapPanic), chains, envs, [b])
      else ExternalsSaved(chains, EntrySet(envs, slot, entry.(addr := Some(reply.addresses[0]))), keys, w, base, c, [b])
  }

  /** The end of `execute_instantiate`: the externals, then a save if they all went through. */
  function ExternalsSaved(chains: seq<LegacyChain>, envs: seq<Env>, keys: seq<UserKey>, w: World, base: nat, c: Descriptor, sent: seq<Batch>): (o: Outcome)
    ensures o.chains == chains
    ensures o.saved ==> o.result.Ok?
    ensures o.result.Ok? ==> o.saved && c.externals.Ok? && |o.sent| == |sent| + |c.externals.value|
    ensures |sent| <= |o.sent| && o.sent[..|sent|] == sent
  {
    if c.externals.Err? then Fail(c.externals.error, chains, envs, sent)
    else
      var ext := ExternalsRun(chains, envs, keys, w, base, c.admin, c.externals.value, sent);
      ext.(saved := ext.result.Ok?)
  }

  /** `b` instantiates the external `e` on its owner's behalf: one request, with `e`'s code id, the common label and the owner's admin. */
  predicate InstantiatesExternal(b: Batch, e: ExternalInstantiate, admin: string) {
    && b.InstantiateBatch? && |b.instantiations| == 1
    && b.instantiations[0].codeId == e.codeId && b.instantiations[0].contractLabel == Label && b.instantiations[0].admin == Some(admin)
  }

  /**
   * One external of `execute_instantiate`: substituted against the active
   * environment as it is now (so it sees the owner's new address and the
   * externals before it), instantiated with the owner's admin, and added
   * under its own name.
   */
  function ExternalTurn(chains: seq<LegacyChain>, envs: seq<Env>, keys: seq<UserKey>, w: World, base: nat, admin: string,
                        e: ExternalInstantiate, sent: seq<Batch>): (o: Outcome)
    ensures !o.saved && o.chains == chains
    ensures |sent| <= |o.sent| <= |sent| + 1 && o.sent[..|sent|] == sent
    ensures o.result.Ok? ==> |o.sent| == |sent| + 1
    ensures |o.sent| > |sent| ==> InstantiatesExternal(o.sent[|sent|], e, admin)
  {
    if ActiveIndex(envs).None? then Fail(EnvNotFound, chains, envs, sent)
    else
      var msg := Rewritten(e.msg, envs[ActiveIndex(envs).value].contracts);
      if msg.Err? then Fail(msg.error, chains, envs, sent)
      else if !w.isAddress(admin) then Fail(AdminAddress, chains, envs, sent)
      else
        var b := InstantiateBatch([InstantiateRequest(e.codeId, msg.value, Label, Some(admin))]);
        var reply := w.answer(base + |sent|, b);
        assert (sent + [b])[..|sent|] == sent;
        if reply.Rejected? then Fail(Chain(reply.error), chains, envs, sent + [b])
        else if |reply.addresses| == 0 then Fail(Panic(UnwrapPanic), chains, envs, sent + [b])
        else
          // An environment is active, so `add_contract_from` upserts into it.
          var i := ActiveIndex(envs).value;
          var added := envs[i := envs[i].(contracts := Upsert(envs[i].contracts, ContractInfo(e.name, Some(reply.addresses[0]), Some(e.codeId))))];
          Outcome(Ok(()), chains, added, sent + [b], false)
  }

  /** The loop over the externals of `execute_instantiate`, from the external at hand on, stopping at the first failure. */
  function ExternalsRun(chains: seq<LegacyChain>, envs: seq<Env>, keys: seq<UserKey>, w: World, base: nat, admin: string,
                        es: seq<ExternalInstantiate>, sent: seq<Batch>): (o: Outcome)
    ensures !o.saved && o.chains == chains
    ensures |sent| <= |o.sent| <= |sent| + |es| && o.sent[..|sent|] == sent
    ensures o.result.Ok? ==> |o.sent| == |sent| + |es|
    decreases |es|
  {
    if |es| == 0 then Outcome(Ok(()), chains, envs, sent, false)
    else
      var t := ExternalTurn(chains, envs, keys, w, base, admin, es[0], sent);
      if t.result.Err? then t
      else
        var rest := ExternalsRun(chains, t.envs, keys, w, base, admin, es[1..], t.sent);
        assert rest.sent[..|sent|] == rest.sent[..|t.sent|][..|sent|];
        rest
  }

  // ----- execute_migrate -----

  /**
   * `execute_migrate`: the contract's instantiate message (which is what is
   * sent as the migration), substitution, then the shared lookup.
   */
  function MigrateRun(chains: seq<LegacyChain>, envs: seq<Env>, keys: seq<UserKey>, w: World, base: nat, c: Descriptor): (o: Outcome)
    ensures !o.saved && |o.sent| <= 1
    ensures ActiveIndex(envs).Some? ==> o.envs == envs
  {
    if c.instantiateMsg.Err? then Fail(c.instantiateMsg.error, chains, envs, [])
    else if ActiveIndex(envs).None? then Fail(EnvNotFound, chains, envs, [])
    else
      var msg := Rewritten(c.instantiateMsg.value, envs[ActiveIndex(envs).value].contracts);
      if msg.Err? then Fail(msg.error, chains, envs, [])
      else
        var l := Resolve(chains, envs, keys, w, c.display);
        if l.result.Err? then Fail(l.result.error, l.chains, l.envs, [])
        else MigrateEntry(l.chains, l.envs, keys, w, base, msg.value, l.envs[l.result.value.env].contracts[l.result.value.entry])
  }

  /** `execute_migrate` once the entry is found: its address, then its code id, the key; one migrate transaction. Nothing is saved. */
  function MigrateEntry(chains: seq<LegacyChain>, envs: seq<Env>, keys: seq<UserKey>, w: World, base: nat, msg: Json, entry: ContractInfo): (o: Outcome)
    ensures !o.saved && o.chains == chains && o.envs == envs && |o.sent| <= 1
    ensures entry.addr.None? ==> o.result == Err(AddrNotFound(None))
    ensures entry.addr.Some? && entry.codeId.None? ==> o.result == Err(CodeIdNotFound)
    ensures o.result.Ok? ==> entry.addr.Some? && entry.codeId.Some? && o.sent == [MigrateBatch([MigrateRequest(msg, entry.addr.value, entry.codeId.value)])]
  {
    if entry.addr.None? then Fail(AddrNotFound(None), chains, envs, [])
    else if entry.codeId.None? then Fail(CodeIdNotFound, chains, envs, [])
    else if ActiveKey(envs, keys).Err? then Fail(ActiveKey(envs, keys).error, chains, envs, [])
    else if !w.isAddress(entry.addr.value) then Fail(Panic(UnwrapPanic), chains, envs, [])
    else
      var b := MigrateBatch([MigrateRequest(msg, entry.addr.value, entry.codeId.value)]);
      var reply := w.answer(base, b);
      if reply.Rejected? then Fail(Chain(reply.error), chains, envs, [b])
      else Outcome(Ok(()), chains, envs, [b], false)
  }

  // ----- execute_set_config -----

  /** `execute_set_config`: the base config message, substitution, then the shared lookup. */
  function SetConfigRun(chains: seq<LegacyChain>, envs: seq<Env>, keys: seq<UserKey>, w: World, base: nat, c: Descriptor): (o: Outcome)
    ensures !o.saved && |o.sent| <= 1
    ensures ActiveIndex(envs).Some? ==> o.envs == envs
  {
    if c.baseConfigMsg.Err? then Fail(c.baseConfigMsg.error, chains, envs, [])
    else if ActiveIndex(envs).None? then Fail(EnvNotFound, chains, envs, [])
    else
      var msg := Rewritten(c.baseConfigMsg.value, envs[ActiveIndex(envs).value].contracts);
      if msg.Err? then Fail(msg.error, chains, envs, [])
      else
        var l := Resolve(chains, envs, keys, w, c.display);
        if l.result.Err? then Fail(l.result.error, l.chains, l.envs, [])
        else SetConfigEntry(l.chains, l.envs, keys, w, base, msg.value, l.envs[l.result.value.env].contracts[l.result.value.entry])
  }

  /** `execute_set_config` once the entry is found: its address (`NoAddr` without one), the key; one execute transaction. Nothing is saved. */
  function SetConfigEntry(chains: seq<LegacyChain>, envs: seq<Env>, keys: seq<UserKey>, w: World, base: nat, msg: Json, entry: ContractInfo): (o: Outcome)
    ensures !o.saved && o.chains == chains && o.envs == envs && |o.sent| <= 1
    ensures entry.addr.None? ==> o.result == Err(NoAddr)
    ensures o.result.Ok? ==> entry.addr.Some? && o.sent == [ExecBatch([ExecRequest(msg, entry.addr.value)])]
  {
    if entry.addr.None? then Fail(NoAddr, chains, envs, [])
    else if ActiveKey(envs, keys).Err? then Fail(ActiveKey(envs, keys).error, chains, envs, [])
    else if !w.isAddress(entry.addr.value) then Fail(Panic(UnwrapPanic), chains, envs, [])
    else
      var b := ExecBatch([ExecRequest(msg, entry.addr.value)]);
      var reply := w.answer(base, b);
      if reply.Rejected? then Fail(Chain(reply.error), chains, envs, [b])
      else Outcome(Ok(()), chains, envs, [b], false)
  }

  // ----- execute_set_up -----

  /**
   * `execute_set_up`: the shared lookup, the registered address (`NoAddr`
   * without one), resolved once; then the set-up messages in turn. Nothing
   * is saved.
   */
  function SetUpRun(chains: seq<LegacyChain>, envs: seq<Env>, keys: seq<UserKey>, w: World, base: nat, c: Descriptor): (o: Outcome)
    ensures !o.saved
    ensures o.result.Ok? ==> c.setUpMsgs.Ok? && |o.sent| == |c.setUpMsgs.value|
    ensures ActiveIndex(envs).Some? ==> o.envs == envs
  {
    var l := Resolve(chains, envs, keys, w, c.display);
    if l.result.Err? then Fail(l.result.error, l.chains, l.envs, [])
    else
      var entry := l.envs[l.result.value.env].contracts[l.result.value.entry];
      if entry.addr.None? then Fail(NoAddr, l.chains, l.envs, [])
      else if c.setUpMsgs.Err? then Fail(c.setUpMsgs.error, l.chains, l.envs, [])
      else SetUpMsgsRun(l.chains, l.envs, keys, w, base, entry.addr.value, c.setUpMsgs.value, [])
  }

  /** `b` is the set-up message `m`, substituted against `contracts`, executed on `addr`. */
  predicate ExecutesOn(b: Batch, m: Json, contracts: seq<ContractInfo>, addr: string) {
    && b.ExecBatch? && |b.executions| == 1
    && b.executions[0].address == addr && Rewritten(m, contracts) == Ok(b.executions[0].msg)
  }

  /**
   * One set-up message of `execute_set_up`: substituted against the active
   * environment and sent to the address resolved before the loop, with the
   * key looked up again for each.
   */
  function SetUpTurn(chains: seq<LegacyChain>, envs: seq<Env>, keys: seq<UserKey>, w: World, base: nat, addr: string,
                     m: Json, sent: seq<Batch>): (o: Outcome)
    ensures !o.saved && o.chains == chains && o.envs == envs
    ensures |sent| <= |o.sent| <= |sent| + 1 && o.sent[..|sent|] == sent
    ensures o.result.Ok? ==> |o.sent| == |sent| + 1
    ensures |o.sent| > |sent| ==> ActiveIndex(envs).Some? && ExecutesOn(o.sent[|sent|], m, envs[ActiveIndex(envs).value].contracts, addr)
  {
    if ActiveIndex(envs).None? then Fail(EnvNotFound, chains, envs, sent)
    else
      var msg := Rewritten(m, envs[ActiveIndex(envs).value].contracts);
      if msg.Err? then Fail(msg.error, chains, envs, sent)
      else if ActiveKey(envs, keys).Err? then Fail(ActiveKey(envs, keys).error, chains, envs, sent)
      else if !w.isAddress(addr) then Fail(Panic(UnwrapPanic), chains, envs, sent)
      else
        var b := ExecBatch([ExecRequest(msg.value, addr)]);
        var reply := w.answer(base + |sent|, b);
        assert (sent + [b])[..|sent|] == sent;
        if reply.Rejected? then Fail(Chain(reply.error), chains, envs, sent + [b])
        else Outcome(Ok(()), chains, envs, sent + [b], false)
  }

  /** The loop of `execute_set_up`, from the message at hand on, stopping at the first failure. */
  function SetUpMsgsRun(chains: seq<LegacyChain>, envs: seq<Env>, keys: seq<UserKey>, w: World, base: nat, addr: string,
                        ms: seq<Json>, sent: seq<Batch>): (o: Outcome)
    ensures !o.saved && o.chains == chains && o.envs == envs
    ensures |sent| <= |o.sent| <= |sent| + |ms| && o.sent[..|sent|] == sent
    ensures o.result.Ok? ==> |o.sent| == |sent| + |ms|
    decreases |ms|
  {
    if |ms| == 0 then Outcome(Ok(()), chains, envs, sent, false)
    else
      var t := SetUpTurn(chains, envs, keys, w, base, addr, ms[0], sent);
      if t.result.Err? then t
      else
        var rest := SetUpMsgsRun(chains, envs, keys, w, base, addr, ms[1..], t.sent);
        assert rest.sent[..|sent|] == rest.sent[..|t.sent|][..|sent|];
        rest
  }

  // ----- The commands on the registry and the chain -----

  /** The world a command meets: the chain's endpoints and answers, with the given prompts, disk and address parsing. */
  function WorldOf(chain: Chain, a: EnvAnswers, entered: Option<LegacyChain>, fs: FileSystem, isAddress: string -> bool): World {
    World(a, entered, fs, chain.accepted, isAddress, chain.answer)
  }

  /** `execute_store` on a loaded registry. */
  method ExecuteStore(config: Config, chain: Chain, c: Descriptor, a: EnvAnswers, entered: Option<LegacyChain>, fs: FileSystem, isAddress: string -> bool)
    returns (r: Result<(), DeployError>)
    modifies config`envs, config`chains, config`saved, chain`sent
    ensures var o := StoreRun(old(config.chains), old(config.envs), config.keys, WorldOf(chain, a, entered, fs, isAddress), |old(chain.sent)|, c);
      && r == o.result && config.chains == o.chains && config.envs == o.envs && chain.sent == old(chain.sent) + o.sent
      && config.saved == (if o.saved then config.Value() else old(config.saved))
  {
    ghost var ce := ActiveChainInfo(config.chains, config.envs, config.keys, a, entered);
    var info := config.GetActiveChainInfo(a, entered);
    assert info == ce.result && config.chains == ce.chains && config.envs == ce.envs;
    if info.Err? {
      return Err(info.error);
    }
    if !chain.Accepts(info.value.rpcEndpoint) {
      return Err(Chain(Transport(info.value.rpcEndpoint)));
    }
    r := StoreUpload(config, chain, c, a, WorldOf(chain, a, entered, fs, isAddress));
  }

  /** `execute_store` once the client is up. */
  method StoreUpload(config: Config, chain: Chain, c: Descriptor, a: EnvAnswers, w: World) returns (r: Result<(), DeployError>)
    requires w.a == a && w.answer == chain.answer
    modifies config`envs, config`saved, chain`sent
    ensures var o := StoreUploaded(config.chains, old(config.envs), config.keys, w, |old(chain.sent)|, c);
      && r == o.result && config.envs == o.envs && chain.sent == old(chain.sent) + o.sent
      && config.saved == (if o.saved then config.Value() else old(config.saved))
  {
    var path := ArtifactPath(c);
    if !w.fs.IsFile(path) {
      return Err(Io(path));
    }
    var key := ActiveKey(config.envs, config.keys);
    if key.Err? {
      return Err(key.error);
    }
    var b := StoreBatch([StoreRequest(w.fs.files[path])]);
    var reply := chain.Submit(b);
    assert reply == w.answer(|old(chain.sent)|, b);
    if reply.Rejected? {
      return Err(Chain(reply.error));
    }
    if |reply.codeIds| == 0 {
      return Err(Panic(UnwrapPanic));
    }
    StoreRecord(config, c, reply.codeIds[0], a);
    config.Save();
    return Ok(());
  }

  /** The registry side of `execute_store` once the code id is known. */
  method StoreRecord(config: Config, c: Descriptor, id: u64, a: EnvAnswers)
    modifies config`envs
    ensures config.envs == StoreRecorded(old(config.envs), config.chains, config.keys, a, c, id)
  {
    var slot := config.GetContract(c.display, a);
    if slot.Ok? {
      var entry := config.envs[slot.value.env].contracts[slot.value.entry];
      config.SetEntry(slot.value, entry.(codeId := Some(id)));
    } else {
      var _ := config.AddContractFrom(ContractInfo(c.name, None, Some(id)), a);
    }
  }

  /** `execute_instantiate` on a loaded registry. */
  method ExecuteInstantiate(config: Config, chain: Chain, c: Descriptor, a: EnvAnswers, entered: Option<LegacyChain>, fs: FileSystem, isAddress: string -> bool)
    returns (r: Result<(), DeployError>)
    modifies config`envs, config`chains, config`saved, chain`sent
    ensures var o := InstantiateRun(old(config.chains), old(config.envs), config.keys, WorldOf(chain, a, entered, fs, isAddress), |old(chain.sent)|, c);
      && r == o.result && config.chains == o.chains && config.envs == o.envs && chain.sent == old(chain.sent) + o.sent
      && config.saved == (if o.saved then config.Value() else old(config.saved))
  {
    if c.instantiateMsg.Err? {
      return Err(c.instantiateMsg.error);
    }
    var env := config.GetActiveEnv();
    if env.Err? {
      return Err(env.error);
    }
    var msg, replaced := ReplaceStrings(c.instantiateMsg.value, env.value.contracts, false);
    if replaced.Err? {
      return Err(replaced.error);
    }
    var key := ActiveKey(config.envs, config.keys);
    if key.Err? {
      return Err(key.error);
    }
    r := InstantiateLocated(config, chain, c, msg, a, WorldOf(chain, a, entered, fs, isAddress));
  }

  /** The lookup the commands other than `execute_store` share, on a loaded registry. */
  method Locate(config: Config, chain: Chain, display: string, a: EnvAnswers, w: World) returns (r: Result<Slot, DeployError>)
    requires w.a == a && w.accepted == chain.accepted
    modifies config`envs, config`chains
    ensures Resolution(r, config.chains, config.envs) == Resolve(old(config.chains), old(config.envs), config.keys, w, display)
  {
    ghost var ce := ActiveChainInfo(config.chains, config.envs, config.keys, a, w.entered);
    var info := config.GetActiveChainInfo(a, w.entered);
    assert info == ce.result && config.chains == ce.chains && config.envs == ce.envs;
    if info.Err? {
      return Err(info.error);
    }
    if !chain.Accepts(info.value.rpcEndpoint) {
      return Err(Chain(Transport(info.value.rpcEndpoint)));
    }
    r := config.GetContract(display, a);
  }

  /** `execute_instantiate` from the chain lookup on. */
  method InstantiateLocated(config: Config, chain: Chain, c: Descriptor, msg: Json, a: EnvAnswers, w: World)
    returns (r: Result<(), DeployError>)
    requires w.a == a && w.answer == chain.answer && w.accepted == chain.accepted
    modifies config`envs, config`chains, config`saved, chain`sent
    ensures var o := LocatedRun(old(config.chains), old(config.envs), config.keys, w, |old(chain.sent)|, c, msg);
      && r == o.result && config.chains == o.chains && config.envs == o.envs && chain.sent == old(chain.sent) + o.sent
      && config.saved == (if o.saved then config.Value() else old(config.saved))
  {
    var slot := Locate(config, chain, c.display, a, w);
    if slot.Err? {
      return Err(slot.error);
    }
    r := InstantiateOwner(config, chain, c, msg, slot.value, a, w);
  }

  /** `execute_instantiate` once the entry is found. */
  method InstantiateOwner(config: Config, chain: Chain, c: Descriptor, msg: Json, slot: Slot, a: EnvAnswers, w: World)
    returns (r: Result<(), DeployError>)
    requires slot.env < |config.envs| && slot.entry < |config.envs[slot.env].contracts|
    requires w.a == a && w.answer == chain.answer
    modifies config`envs, config`saved, chain`sent
    ensures var o := OwnerRun(config.chains, old(config.envs), config.keys, w, |old(chain.sent)|, c, msg, slot);
      && r == o.result && config.envs == o.envs && chain.sent == old(chain.sent) + o.sent
      && config.saved == (if o.saved then config.Value() else old(config.saved))
  {
    var entry := config.envs[slot.env].contracts[slot.entry];
    if entry.codeId.None? {
      return Err(CodeIdNotFound);
    }
    if !w.isAddress(c.admin) {
      return Err(AdminAddress);
    }
    r := InstantiateSubmit(config, chain, c, msg, slot, a, w);
  }

  /** `execute_instantiate` once the code id and the admin are known good: the transaction, the new address, the externals. */
  method InstantiateSubmit(config: Config, chain: Chain, c: Descriptor, msg: Json, slot: Slot, a: EnvAnswers, w: World)
    returns (r: Result<(), DeployError>)
    requires slot.env < |config.envs| && slot.entry < |config.envs[slot.env].contracts|
    requires config.envs[slot.env].contracts[slot.entry].codeId.Some? && w.isAddress(c.admin)
    requires w.a == a && w.answer == chain.answer
    modifies config`envs, config`saved, chain`sent
    ensures var o := OwnerRun(config.chains, old(config.envs), config.keys, w, |old(chain.sent)|, c, msg, slot);
      && r == o.result && config.envs == o.envs && chain.sent == old(chain.sent) + o.sent
      && config.saved == (if o.saved then config.Value() else old(config.saved))
  {
    var entry := config.envs[slot.env].contracts[slot.entry];
    var b := InstantiateBatch([InstantiateRequest(entry.codeId.value, msg, Label, Some(c.admin))]);
    var reply := chain.Submit(b);
    assert reply == w.answer(|old(chain.sent)|, b);
    if reply.Rejected? {
      return Err(Chain(reply.error));
    }
    if |reply.addresses| == 0 {
      return Err(Panic(UnwrapPanic));
    }
    config.SetEntry(slot, entry.(addr := Some(reply.addresses[0])));
    ghost var o := ExternalsSaved(config.chains, config.envs, config.keys, w, |old(chain.sent)|, c, [b]);
    r := InstantiateExternals(config, chain, c, a, w, |old(chain.sent)|, [b]);
    PrefixStep(old(chain.sent), [], [b], o.sent);
  }

  /** The externals of `execute_instantiate`, then the save. */
  method InstantiateExternals(config: Config, chain: Chain, c: Descriptor, a: EnvAnswers, w: World, ghost base: nat, ghost sent0: seq<Batch>)
    returns (r: Result<(), DeployError>)
    requires w.a == a && w.answer == chain.answer
    requires |chain.sent| == base + |sent0|
    modifies config`envs, config`saved, chain`sent
    ensures var o := ExternalsSaved(config.chains, old(config.envs), config.keys, w, base, c, sent0);
      && r == o.result && config.envs == o.envs && |sent0| <= |o.sent| && chain.sent == old(chain.sent) + o.sent[|sent0|..]
      && config.saved == (if o.saved then config.Value() else old(config.saved))
  {
    if c.externals.Err? {
      assert sent0[|sent0|..] == [];
      return Err(c.externals.error);
    }
    r := EachExternal(config, chain, c.admin, c.externals.value, a, w, base, sent0);
    if r.Ok? {
      config.Save();
    }
  }

  /** The loop over the externals of `execute_instantiate`. */
  method EachExternal(config: Config, chain: Chain, admin: string, es: seq<ExternalInstantiate>, a: EnvAnswers, w: World,
                      ghost base: nat, ghost sent0: seq<Batch>)
    returns (r: Result<(), DeployError>)
    requires w.a == a && w.answer == chain.answer
    requires |chain.sent| == base + |sent0|
    modifies config`envs, chain`sent
    ensures var o := ExternalsRun(config.chains, old(config.envs), config.keys, w, base, admin, es, sent0);
      && r == o.result && config.envs == o.envs && chain.sent == old(chain.sent) + o.sent[|sent0|..]
  {
    ghost var sent := sent0;
    for i := 0 to |es|
      invariant |sent0| <= |sent| && sent[..|sent0|] == sent0 && |chain.sent| == base + |sent|
      invariant chain.sent == old(chain.sent) + sent[|sent0|..]
      invariant ExternalsRun(config.chains, old(config.envs), config.keys, w, base, admin, es, sent0)
             == ExternalsRun(config.chains, config.envs, config.keys, w, base, admin, es[i..], sent)
    {
      ghost var after;
      r, after := InstantiateExternal(config, chain, admin, es[i..], a, w, base, sent);
      PrefixStep(old(chain.sent), sent0, sent, after);
      if r.Err? {
        return;
      }
      assert es[i..][1..] == es[i + 1..];
      sent := after;
    }
    assert es[|es|..] == [];
    return Ok(());
  }

  /** One external of `execute_instantiate`: the first of those left. */
  method InstantiateExternal(config: Config, chain: Chain, admin: string, es: seq<ExternalInstantiate>, a: EnvAnswers, w: World,
                             ghost base: nat, ghost sent: seq<Batch>)
    returns (r: Result<(), DeployError>, ghost after: seq<Batch>)
    requires w.a == a && w.answer == chain.answer
    requires |chain.sent| == base + |sent| && |es| > 0
    modifies config`envs, chain`sent
    ensures |sent| <= |after| && after[..|sent|] == sent && chain.sent == old(chain.sent) + after[|sent|..]
    ensures r.Err? ==> ExternalsRun(config.chains, old(config.envs), config.keys, w, base, admin, es, sent)
                       == Outcome(r, config.chains, config.envs, after, false)
    ensures r.Ok? ==> ExternalsRun(config.chains, old(config.envs), config.keys, w, base, admin, es, sent)
                      == ExternalsRun(config.chains, config.envs, config.keys, w, base, admin, es[1..], after)
  {
    ghost var t := ExternalTurn(config.chains, config.envs, config.keys, w, base, admin, es[0], sent);
    r, after := ExternalOnce(config, chain, admin, es[0], a, w, base, sent);
  }

  /** One external of `execute_instantiate`. */
  method ExternalOnce(config: Config, chain: Chain, admin: string, e: ExternalInstantiate, a: EnvAnswers, w: World,
                      ghost base: nat, ghost sent: seq<Batch>)
    returns (r: Result<(), DeployError>, ghost after: seq<Batch>)
    requires w.a == a && w.answer == chain.answer
    requires |chain.sent| == base + |sent|
    modifies config`envs, chain`sent
    ensures var t := ExternalTurn(config.chains, old(config.envs), config.keys, w, base, admin, e, sent);
      && r == t.result && config.envs == t.envs && after == t.sent && |sent| <= |after| && chain.sent == old(chain.sent) + after[|sent|..]
  {
    after := sent;
    var env := config.GetActiveEnv();
    if env.Err? {
      return Err(env.error), after;
    }
    var msg, replaced := ReplaceStrings(e.msg, env.value.contracts, false);
    if replaced.Err? {
      return Err(replaced.error), after;
    }
    if !w.isAddress(admin) {
      return Err(AdminAddress), after;
    }
    var b := InstantiateBatch([InstantiateRequest(e.codeId, msg, Label, Some(admin))]);
    var reply := chain.Submit(b);
    assert reply == w.answer(base + |sent|, b);
    after := sent + [b];
    assert after[|sent|..] == [b];
    if reply.Rejected? {
      return Err(Chain(reply.error)), after;
    }
    if |reply.addresses| == 0 {
      return Err(Panic(UnwrapPanic)), after;
    }
    // An environment is active, so `add_contract_from` finds it and cannot fail.
    var _ := config.AddContractFrom(ContractInfo(e.name, Some(reply.addresses[0]), Some(e.codeId)), a);
    r := Ok(());
  }

  /** `execute_migrate` on a loaded registry. */
  method ExecuteMigrate(config: Config, chain: Chain, c: Descriptor, a: EnvAnswers, entered: Option<LegacyChain>, fs: FileSystem, isAddress: string -> bool)
    returns (r: Result<(), DeployError>)
    modifies config`envs, config`chains, chain`sent
    ensures var o := MigrateRun(old(config.chains), old(config.envs), config.keys, WorldOf(chain, a, entered, fs, isAddress), |old(chain.sent)|, c);
      && r == o.result && config.chains == o.chains && config.envs == o.envs && chain.sent == old(chain.sent) + o.sent
  {
    if c.instantiateMsg.Err? {
      return Err(c.instantiateMsg.error);
    }
    var env := config.GetActiveEnv();
    if env.Err? {
      return Err(env.error);
    }
    var msg, replaced := ReplaceStrings(c.instantiateMsg.value, env.value.contracts, false);
    if replaced.Err? {
      return Err(replaced.error);
    }
    var w := WorldOf(chain, a, entered, fs, isAddress);
    var slot := Locate(config, chain, c.display, a, w);
    if slot.Err? {
      return Err(slot.error);
    }
    r := MigrateOnce(config, chain, msg, config.envs[slot.value.env].contracts[slot.value.entry], w);
  }

  /** `execute_migrate` once the entry is found. */
  method MigrateOnce(config: Config, chain: Chain, msg: Json, entry: ContractInfo, w: World) returns (r: Result<(), DeployError>)
    requires w.answer == chain.answer
    modifies chain`sent
    ensures var o := MigrateEntry(config.chains, config.envs, config.keys, w, |old(chain.sent)|, msg, entry);
      && r == o.result && chain.sent == old(chain.sent) + o.sent
  {
    if entry.addr.None? {
      return Err(AddrNotFound(None));
    }
    if entry.codeId.None? {
      return Err(CodeIdNotFound);
    }
    var key := ActiveKey(config.envs, config.keys);
    if key.Err? {
      return Err(key.error);
    }
    if !w.isAddress(entry.addr.value) {
      return Err(Panic(UnwrapPanic));
    }
    var reply := chain.Submit(MigrateBatch([MigrateRequest(msg, entry.addr.value, entry.codeId.value)]));
    if reply.Rejected? {
      return Err(Chain(reply.error));
    }
    return Ok(());
  }

  /** `execute_set_config` on a loaded registry. */
  method ExecuteSetConfig(config: Config, chain: Chain, c: Descriptor, a: EnvAnswers, entered: Option<LegacyChain>, fs: FileSystem, isAddress: string -> bool)
    returns (r: Result<(), DeployError>)
    modifies config`envs, config`chains, chain`sent
    ensures var o := SetConfigRun(old(config.chains), old(config.envs), config.keys, WorldOf(chain, a, entered, fs, isAddress), |old(chain.sent)|, c);
      && r == o.result && config.chains == o.chains && config.envs == o.envs && chain.sent == old(chain.sent) + o.sent
  {
    if c.baseConfigMsg.Err? {
      return Err(c.baseConfigMsg.error);
    }
    var env := config.GetActiveEnv();
    if env.Err? {
      return Err(env.error);
    }
    var msg, replaced := ReplaceStrings(c.baseConfigMsg.value, env.value.contracts, false);
    if replaced.Err? {
      return Err(replaced.error);
    }
    var w := WorldOf(chain, a, entered, fs, isAddress);
    var slot := Locate(config, chain, c.display, a, w);
    if slot.Err? {
      return Err(slot.error);
    }
    r := SetConfigOnce(config, chain, msg, config.envs[slot.value.env].contracts[slot.value.entry], w);
  }

  /** `execute_set_config` once the entry is found. */
  method SetConfigOnce(config: Config, chain: Chain, msg: Json, entry: ContractInfo, w: World) returns (r: Result<(), DeployError>)
    requires w.answer == chain.answer
    modifies chain`sent
    ensures var o := SetConfigEntry(config.chains, config.envs, config.keys, w, |old(chain.sent)|, msg, entry);
      && r == o.result && chain.sent == old(chain.sent) + o.sent
  {
    if entry.addr.None? {
      return Err(NoAddr);
    }
    var key := ActiveKey(config.envs, config.keys);
    if key.Err? {
      return Err(key.error);
    }
    if !w.isAddress(entry.addr.value) {
      return Err(Panic(UnwrapPanic));
    }
    var reply := chain.Submit(ExecBatch([ExecRequest(msg, entry.addr.value)]));
    if reply.Rejected? {
      return Err(Chain(reply.error));
    }
    return Ok(());
  }

  /** `execute_set_up` on a loaded registry. */
  method ExecuteSetUp(config: Config, chain: Chain, c: Descriptor, a: EnvAnswers, entered: Option<LegacyChain>, fs: FileSystem, isAddress: string -> bool)
    returns (r: Result<(), DeployError>)
    modifies config`envs, config`chains, chain`sent
    ensures var o := SetUpRun(old(config.chains), old(config.envs), config.keys, WorldOf(chain, a, entered, fs, isAddress), |old(chain.sent)|, c);
      && r == o.result && config.chains == o.chains && config.envs == o.envs && chain.sent == old(chain.sent) + o.sent
  {
    var w := WorldOf(chain, a, entered, fs, isAddress);
    var slot := Locate(config, chain, c.display, a, w);
    if slot.Err? {
      return Err(slot.error);
    }
    var entry := config.envs[slot.value.env].contracts[slot.value.entry];
    if entry.addr.None? {
      return Err(NoAddr);
    }
    if c.setUpMsgs.Err? {
      return Err(c.setUpMsgs.error);
    }
    r := SetUpMessages(config, chain, entry.addr.value, c.setUpMsgs.value, w);
  }

  /** The loop of `execute_set_up`. */
  method SetUpMessages(config: Config, chain: Chain, addr: string, ms: seq<Json>, w: World) returns (r: Result<(), DeployError>)
    requires w.answer == chain.answer
    modifies chain`sent
    ensures var o := SetUpMsgsRun(config.chains, config.envs, config.keys, w, |old(chain.sent)|, addr, ms, []);
      && r == o.result && chain.sent == old(chain.sent) + o.sent
  {
    ghost var base := |chain.sent|;
    ghost var sent: seq<Batch> := [];
    for i := 0 to |ms|
      invariant |chain.sent| == base + |sent| && chain.sent == old(chain.sent) + sent
      invariant SetUpMsgsRun(config.chains, config.envs, config.keys, w, base, addr, ms, [])
             == SetUpMsgsRun(config.chains, config.envs, config.keys, w, base, addr, ms[i..], sent)
    {
      assert ms[i..][0] == ms[i] && ms[i..][1..] == ms[i + 1..];
      ghost var after;
      r, after := SetUpMessage(config, chain, addr, ms[i], w, base, sent);
      PrefixStep(old(chain.sent), [], sent, after);
      if r.Err? {
        return;
      }
      sent := after;
    }
    assert ms[|ms|..] == [];
    return Ok(());
  }

  /** One set-up message of `execute_set_up`. */
  method SetUpMessage(config: Config, chain: Chain, addr: string, m: Json, w: World, ghost base: nat, ghost sent: seq<Batch>)
    returns (r: Result<(), DeployError>, ghost after: seq<Batch>)
    requires w.answer == chain.answer && |chain.sent| == base + |sent|
    modifies chain`sent
    ensures var t := SetUpTurn(config.chains, config.envs, config.keys, w, base, addr, m, sent);
      && r == t.result && after == t.sent && |sent| <= |after| && chain.sent == old(chain.sent) + after[|sent|..]
  {
    after := sent;
    var env := config.GetActiveEnv();
    if env.Err? {
      return Err(env.error), after;
    }
    var msg, replaced := ReplaceStrings(m, env.value.contracts, false);
    if replaced.Err? {
      return Err(replaced.error), after;
    }
    var key := ActiveKey(config.envs, config.keys);
    if key.Err? {
      return Err(key.error), after;
    }
    if !w.isAddress(addr) {
      return Err(Panic(UnwrapPanic)), after;
    }
    var b := ExecBatch([ExecRequest(msg, addr)]);
    var reply := chain.Submit(b);
    assert reply == w.answer(base + |sent|, b);
    after := sent + [b];
    assert after[|sent|..] == [b];
    if reply.Rejected? {
      return Err(Chain(reply.error)), after;
    }
    r := Ok(());
  }
}
