/**
 * `execute_deployment` of wasm-deploy/src/deployment.rs: the active chain,
 * key and RPC client are resolved first; then the stage builds its
 * request list in a loop over the contracts, stopping at the first error,
 * sends it as one batch (unless it is a dry run, or a stage that skips an
 * empty list), writes the chain's answer back into the registry in a second
 * loop, and saves. Each loop is proved against the functions of `Stages`.
 */
module Deployment {
  import opened Wrappers
  import opened Types
  import opened Seqs
  import opened Environments
  import opened Registry
  import opened Workspace
  import opened ContractDefaults
  import opened ChainClient
  import opened Stages

  /** With an environment active, the registry's lookups are those of its contract list. */
  lemma ActiveLookups(config: Config, name: string)
    requires ActiveIndex(config.envs).Some?
    ensures config.GetContract(name) == match Lookup(ActiveEntries(config.envs), name)
      case Some(c) => Ok(c)
      case None => Err(ContractNotFound(Some(name)))
    ensures config.GetContractAddr(name) == AddrOf(ActiveEntries(config.envs), name)
  {
  }

  // ----- Building the request lists -----

  /** StoreCode's request loop. */
  method StoreRequests(ws: WorkspaceSettings, fs: FileSystem, cs: seq<Contract>) returns (r: Result<seq<StoreRequest>, DeployError>)
    ensures r == StorePlan(ws, fs, cs)
  {
    var reqs: seq<StoreRequest> := [];
    for i := 0 to |cs|
      invariant StorePlan(ws, fs, cs[..i]) == Ok(reqs)
    {
      var path := ArtifactPath(ws, cs[i]);
      TryFlatMapStep(cs, StoreStep(ws, fs), i);
      if !fs.IsFile(path) {
        TryFlatMapErrPrefix(cs, StoreStep(ws, fs), i + 1);
        return Err(Io(path));
      }
      reqs := reqs + [StoreRequest(fs.files[path])];
    }
    assert cs[..|cs|] == cs;
    return Ok(reqs);
  }

  /** Instantiate's first pass: `msgs`, collected before any request is built. */
  method PendingMessages(interactive: bool, cs: seq<Contract>) returns (r: Result<seq<Pending>, DeployError>)
    ensures r == Pendings(interactive, cs)
  {
    var ps: seq<Pending> := [];
    for i := 0 to |cs|
      invariant Pendings(interactive, cs[..i]) == Ok(ps)
    {
      var c := cs[i];
      TryFlatMapStep(cs, MsgStep(interactive), i);
      var msg: Option<Json>;
      if interactive {
        if c.instantiate.Err? {
          TryFlatMapErrPrefix(cs, MsgStep(interactive), i + 1);
          return Err(c.instantiate.error);
        }
        msg := Some(c.instantiate.value);
      } else {
        msg := c.instantiateMsg;
      }
      ps := ps + [Pending(c, msg)];
    }
    assert cs[..|cs|] == cs;
    return Ok(ps);
  }

  /** Instantiate's request loop, reading the registry. */
  method InstantiateRequests(config: Config, isAddress: string -> bool, ps: seq<Pending>) returns (r: Result<seq<InstantiateRequest>, DeployError>)
    requires ActiveIndex(config.envs).Some?
    ensures r == InstantiatePlan(ActiveEntries(config.envs), isAddress, ps)
  {
    ghost var entries := ActiveEntries(config.envs);
    ghost var step := InstantiateStep(entries, isAddress);
    var reqs: seq<InstantiateRequest> := [];
    for i := 0 to |ps|
      invariant InstantiatePlan(entries, isAddress, ps[..i]) == Ok(reqs)
    {
      var p := ps[i];
      TryFlatMapStep(ps, step, i);
      if p.msg.Some? {
        ActiveLookups(config, p.contract.display);
        var info := config.GetContract(p.contract.display);
        if info.Err? {
          TryFlatMapErrPrefix(ps, step, i + 1);
          return Err(info.error);
        }
        if info.value.codeId.None? {
          TryFlatMapErrPrefix(ps, step, i + 1);
          return Err(CodeIdNotFound);
        }
        if !isAddress(p.contract.admin) {
          TryFlatMapErrPrefix(ps, step, i + 1);
          return Err(InvalidAddress(p.contract.admin));
        }
        reqs := reqs + [InstantiateRequest(info.value.codeId.value, p.msg.value, p.contract.name, Some(p.contract.admin))];
      }
    }
    assert ps[..|ps|] == ps;
    return Ok(reqs);
  }

  /** ExternalInstantiate's request loop: contract by contract, external by external. */
  method ExternalRequests(isAddress: string -> bool, cs: seq<Contract>) returns (r: Result<seq<InstantiateRequest>, DeployError>)
    ensures r == ExternalPlan(isAddress, cs)
  {
    var reqs: seq<InstantiateRequest> := [];
    for i := 0 to |cs|
      invariant ExternalPlan(isAddress, cs[..i]) == Ok(reqs)
    {
      var c := cs[i];
      TryFlatMapStep(cs, ExternalStep(isAddress), i);
      ghost var before := reqs;
      for j := 0 to |c.externals|
        invariant |reqs| == |before| + j && reqs[..|before|] == before
        invariant j > 0 ==> isAddress(c.admin)
        invariant forall k :: 0 <= k < j ==> reqs[|before| + k] == ExternalRequest(c, c.externals[k])
      {
        if !isAddress(c.admin) {
          TryFlatMapErrPrefix(cs, ExternalStep(isAddress), i + 1);
          return Err(InvalidAddress(c.admin));
        }
        reqs := reqs + [ExternalRequest(c, c.externals[j])];
      }
      if |c.externals| > 0 {
        assert reqs == before + ExternalItem(isAddress, c).value;
      } else {
        assert reqs == before;
      }
    }
    assert cs[..|cs|] == cs;
    return Ok(reqs);
  }

  /** SetConfig's request loop, reading each contract's registered address. */
  method SetConfigRequests(config: Config, isAddress: string -> bool, cs: seq<Contract>) returns (r: Result<seq<ExecRequest>, DeployError>)
    requires ActiveIndex(config.envs).Some?
    ensures r == SetConfigPlan(ActiveEntries(config.envs), isAddress, cs)
  {
    ghost var entries := ActiveEntries(config.envs);
    ghost var step := SetConfigStep(entries, isAddress);
    var reqs: seq<ExecRequest> := [];
    for i := 0 to |cs|
      invariant SetConfigPlan(entries, isAddress, cs[..i]) == Ok(reqs)
    {
      var c := cs[i];
      TryFlatMapStep(cs, step, i);
      if c.setConfigMsg.Some? {
        ActiveLookups(config, c.display);
        var addr := config.GetContractAddr(c.display);
        if addr.Err? {
          TryFlatMapErrPrefix(cs, step, i + 1);
          return Err(addr.error);
        }
        if !isAddress(addr.value) {
          TryFlatMapErrPrefix(cs, step, i + 1);
          return Err(InvalidAddress(addr.value));
        }
        reqs := reqs + [ExecRequest(c.setConfigMsg.value, addr.value)];
      }
    }
    assert cs[..|cs|] == cs;
    return Ok(reqs);
  }

  /** SetUp's request loop, contract by contract. */
  method SetUpRequests(config: Config, isAddress: string -> bool, cs: seq<Contract>) returns (r: Result<seq<ExecRequest>, DeployError>)
    requires ActiveIndex(config.envs).Some?
    ensures r == SetUpPlan(ActiveEntries(config.envs), isAddress, cs)
  {
    ghost var entries := ActiveEntries(config.envs);
    ghost var step := SetUpStep(entries, isAddress);
    var reqs: seq<ExecRequest> := [];
    for i := 0 to |cs|
      invariant SetUpPlan(entries, isAddress, cs[..i]) == Ok(reqs)
    {
      TryFlatMapStep(cs, step, i);
      var own := ContractSetUpRequests(config, isAddress, cs[i]);
      if own.Err? {
        TryFlatMapErrPrefix(cs, step, i + 1);
        return Err(own.error);
      }
      reqs := reqs + own.value;
    }
    assert cs[..|cs|] == cs;
    return Ok(reqs);
  }

  /** The inner loop of SetUp: each of one contract's messages looks the contract's address up again. */
  method ContractSetUpRequests(config: Config, isAddress: string -> bool, c: Contract) returns (r: Result<seq<ExecRequest>, DeployError>)
    requires ActiveIndex(config.envs).Some?
    ensures r == SetUpItem(ActiveEntries(config.envs), isAddress, c)
  {
    ghost var entries := ActiveEntries(config.envs);
    var reqs: seq<ExecRequest> := [];
    for j := 0 to |c.setUpMsgs|
      invariant |reqs| == j
      invariant j > 0 ==> Target(entries, isAddress, c).Ok?
      invariant forall k :: 0 <= k < j ==> reqs[k] == ExecRequest(c.setUpMsgs[k], Target(entries, isAddress, c).value)
    {
      ActiveLookups(config, c.display);
      var addr := config.GetContractAddr(c.display);
      if addr.Err? {
        return Err(addr.error);
      }
      if !isAddress(addr.value) {
        return Err(InvalidAddress(addr.value));
      }
      reqs := reqs + [ExecRequest(c.setUpMsgs[j], addr.value)];
    }
    if |c.setUpMsgs| == 0 {
      return Ok([]);
    }
    assert reqs == SetUpItem(entries, isAddress, c).value;
    return Ok(reqs);
  }

  /** Migrate's request loop: message, then registry entry, address, code id, and the address's parse. */
  method MigrateRequests(config: Config, isAddress: string -> bool, interactive: bool, cs: seq<Contract>) returns (r: Result<seq<MigrateRequest>, DeployError>)
    requires ActiveIndex(config.envs).Some?
    ensures r == MigratePlan(ActiveEntries(config.envs), isAddress, interactive, cs)
  {
    ghost var entries := ActiveEntries(config.envs);
    ghost var step := MigrateStep(entries, isAddress, interactive);
    var reqs: seq<MigrateRequest> := [];
    for i := 0 to |cs|
      invariant MigratePlan(entries, isAddress, interactive, cs[..i]) == Ok(reqs)
    {
      var c := cs[i];
      TryFlatMapStep(cs, step, i);
      var msg: Option<Json>;
      if interactive {
        if c.migrate.Err? {
          TryFlatMapErrPrefix(cs, step, i + 1);
          return Err(c.migrate.error);
        }
        msg := Some(c.migrate.value);
      } else {
        msg := c.migrateMsg;
      }
      if msg.Some? {
        ActiveLookups(config, c.display);
        var info := config.GetContract(c.display);
        if info.Err? {
          TryFlatMapErrPrefix(cs, step, i + 1);
          return Err(info.error);
        }
        if info.value.addr.None? {
          TryFlatMapErrPrefix(cs, step, i + 1);
          return Err(AddrNotFound(Some(info.value.name)));
        }
        if info.value.codeId.None? {
          TryFlatMapErrPrefix(cs, step, i + 1);
          return Err(CodeIdNotFound);
        }
        if !isAddress(info.value.addr.value) {
          TryFlatMapErrPrefix(cs, step, i + 1);
          return Err(InvalidAddress(info.value.addr.value));
        }
        reqs := reqs + [MigrateRequest(msg.value, info.value.addr.value, info.value.codeId.value)];
      }
    }
    assert cs[..|cs|] == cs;
    return Ok(reqs);
  }

  // ----- The whole deployment -----

  /**
   * What `execute_deployment` needs before any stage: the active chain, the
   * active key, and an RPC client for the chain's endpoint, failing in that order.
   */
  function Preamble(config: Config, chain: Chain): (r: Result<(ChainInfo, UserKey), DeployError>)
    reads config
    ensures config.GetActiveChainInfo().Err? ==> r == Err(config.GetActiveChainInfo().error)
    ensures config.GetActiveChainInfo().Ok? && config.GetActiveKey().Err? ==> r == Err(config.GetActiveKey().error)
    ensures r.Ok? <==>
      config.GetActiveChainInfo().Ok? && config.GetActiveKey().Ok? && chain.Accepts(config.GetActiveChainInfo().value.rpcEndpoint)
    ensures r.Err? && config.GetActiveChainInfo().Ok? && config.GetActiveKey().Ok? ==>
      r.error == Chain(Transport(config.GetActiveChainInfo().value.rpcEndpoint))
    ensures r.Ok? ==> ActiveIndex(config.envs).Some? && r.value.0.rpcEndpoint == config.GetActiveChainInfo().value.rpcEndpoint
  {
    match config.GetActiveChainInfo()
    case Err(e) => Err(e)
    case Ok(info) =>
      match config.GetActiveKey()
      case Err(e) => Err(e)
      case Ok(key) =>
        if chain.Accepts(info.rpcEndpoint) then Ok((info, key)) else Err(Chain(Transport(info.rpcEndpoint)))
  }

  /**
   * `execute_deployment`: the preamble, then one stage. A failing preamble
   * changes nothing; otherwise the stage runs as `RunSpec` describes.
   */
  method ExecuteDeployment(config: Config, chain: Chain, ws: WorkspaceSettings, fs: FileSystem, isAddress: string -> bool,
                           cs: seq<Contract>, dryRun: bool, stage: DeploymentStage) returns (r: Result<(), DeployError>)
    modifies config`envs, config`saved, chain`sent
    ensures old(Preamble(config, chain)).Err? ==>
      r == Err(old(Preamble(config, chain)).error) && unchanged(config) && chain.sent == old(chain.sent)
    ensures old(Preamble(config, chain)).Ok? ==>
      var run := RunSpec(stage, ActiveEntries(old(config.envs)), ws, fs, isAddress, cs, dryRun, |old(chain.sent)|, chain.answer);
      && r == run.result
      && chain.sent == old(chain.sent) + (if run.submitted.Some? then [run.submitted.value] else [])
      && config.envs == (if run.written.Some? then WithActiveEntries(old(config.envs), run.written.value) else old(config.envs))
      && config.saved == (if run.written.Some? then config.Value() else old(config.saved))
    ensures Preamble(config, chain) == old(Preamble(config, chain))
  {
    var pre := Preamble(config, chain);
    if pre.Err? {
      return Err(pre.error);
    }
    r := RunStage(config, chain, ws, fs, isAddress, cs, dryRun, stage);
    ghost var a := ActiveIndex(old(config.envs)).value;
    WithActiveEntriesKeepsActive(old(config.envs), ActiveEntries(config.envs), ActiveEntries(config.envs));
    assert config.envs == WithActiveEntries(old(config.envs), ActiveEntries(config.envs));
    assert config.GetActiveEnv() == Ok(old(config.envs)[a].(contracts := ActiveEntries(config.envs)));
    assert old(config.GetActiveEnv()) == Ok(old(config.envs)[a]);
  }

  // ----- One stage -----

  /**
   * `execute_deployment` once the client is built: the stage builds its
   * request list from the descriptors and the registry, submits it as one
   * batch unless this is a dry run (or, for ExternalInstantiate, SetConfig and
   * SetUp, the list is empty), writes the chain's answer back and saves.
   */
  method RunStage(config: Config, chain: Chain, ws: WorkspaceSettings, fs: FileSystem, isAddress: string -> bool,
                  cs: seq<Contract>, dryRun: bool, stage: DeploymentStage) returns (r: Result<(), DeployError>)
    requires ActiveIndex(config.envs).Some?
    modifies config`envs, config`saved, chain`sent
    ensures var run := RunSpec(stage, ActiveEntries(old(config.envs)), ws, fs, isAddress, cs, dryRun, |old(chain.sent)|, chain.answer);
      && r == run.result
      && chain.sent == old(chain.sent) + (if run.submitted.Some? then [run.submitted.value] else [])
      && config.envs == (if run.written.Some? then WithActiveEntries(old(config.envs), run.written.value) else old(config.envs))
      && config.saved == (if run.written.Some? then config.Value() else old(config.saved))
  {
    var batch, hs := BuildBatch(config, ws, fs, isAddress, cs, stage);
    if batch.Err? {
      return Err(batch.error);
    }
    if dryRun || (BatchSize(batch.value) == 0 && (stage.ExternalInstantiate? || stage.SetConfig? || stage.SetUp?)) {
      return Ok(());
    }
    var reply := chain.Submit(batch.value);
    r := WriteReply(config, stage, cs, hs, reply);
  }

  /** The request list of a stage, and for Instantiate the contracts that have a message (`has_msg`). */
  method BuildBatch(config: Config, ws: WorkspaceSettings, fs: FileSystem, isAddress: string -> bool,
                    cs: seq<Contract>, stage: DeploymentStage) returns (r: Result<Batch, DeployError>, hs: seq<Pending>)
    requires ActiveIndex(config.envs).Some?
    ensures r == Plan(stage, ActiveEntries(config.envs), ws, fs, isAddress, cs)
    ensures stage.Instantiate? && r.Ok? ==>
      && Pendings(stage.interactive, cs).Ok? && hs == WithMessage(Pendings(stage.interactive, cs).value)
      && forall k :: 0 <= k < |hs| ==> Lookup(ActiveEntries(config.envs), hs[k].contract.display).Some?
  {
    hs := [];
    match stage {
      case StoreCode =>
        var reqs := StoreRequests(ws, fs, cs);
        if reqs.Err? {
          return Err(reqs.error), hs;
        }
        r := Ok(StoreBatch(reqs.value));
      case Instantiate(interactive) =>
        var ps := PendingMessages(interactive, cs);
        if ps.Err? {
          return Err(ps.error), hs;
        }
        hs := WithMessage(ps.value);
        var reqs := InstantiateRequests(config, isAddress, ps.value);
        if reqs.Err? {
          return Err(reqs.error), hs;
        }
        InstantiablesRegistered(ActiveEntries(config.envs), isAddress, ps.value);
        r := Ok(InstantiateBatch(reqs.value));
      case ExternalInstantiate =>
        var reqs := ExternalRequests(isAddress, cs);
        if reqs.Err? {
          return Err(reqs.error), hs;
        }
        r := Ok(InstantiateBatch(reqs.value));
      case SetConfig =>
        var reqs := SetConfigRequests(config, isAddress, cs);
        if reqs.Err? {
          return Err(reqs.error), hs;
        }
        r := Ok(ExecBatch(reqs.value));
      case SetUp =>
        var reqs := SetUpRequests(config, isAddress, cs);
        if reqs.Err? {
          return Err(reqs.error), hs;
        }
        r := Ok(ExecBatch(reqs.value));
      case Migrate(interactive) =>
        var reqs := MigrateRequests(config, isAddress, interactive, cs);
        if reqs.Err? {
          return Err(reqs.error), hs;
        }
        r := Ok(MigrateBatch(reqs.value));
    }
  }

  /**
   * The chain's answer written back: a rejection is the stage's error; the
   * recording stages write the answer position by position and save, or
   * panic when the answer is too short; the others change nothing.
   */
  method WriteReply(config: Config, stage: DeploymentStage, cs: seq<Contract>, hs: seq<Pending>, reply: Reply) returns (r: Result<(), DeployError>)
    requires ActiveIndex(config.envs).Some?
    requires stage.Instantiate? ==>
      && Pendings(stage.interactive, cs).Ok? && hs == WithMessage(Pendings(stage.interactive, cs).value)
      && forall k :: 0 <= k < |hs| ==> Lookup(ActiveEntries(config.envs), hs[k].contract.display).Some?
    modifies config`envs, config`saved
    ensures var w := WriteBack(stage, ActiveEntries(old(config.envs)), cs, reply);
      && r == (if w.Ok? then Ok(()) else Err(w.error))
      && config.envs == (if w.Ok? && Records(stage) then WithActiveEntries(old(config.envs), w.value) else old(config.envs))
      && config.saved == (if w.Ok? && Records(stage) then config.Value() else old(config.saved))
  {
    if reply.Rejected? {
      return Err(Chain(reply.error));
    }
    match stage {
      case StoreCode =>
        if |reply.codeIds| < |cs| {
          return Err(Panic(IndexPanic));
        }
        WriteCodeIds(config, cs, reply.codeIds[..|cs|]);
        config.Save();
      case Instantiate(_) =>
        if |reply.addresses| < |hs| {
          return Err(Panic(IndexPanic));
        }
        WriteAddresses(config, hs, reply.addresses[..|hs|]);
        config.Save();
      case ExternalInstantiate =>
        if |reply.addresses| < |Owned(cs)| {
          return Err(Panic(IndexPanic));
        }
        WriteExternals(config, cs, reply.addresses);
        config.Save();
      case _ =>
    }
    return Ok(());
  }

  /** After a successful plan every contract with a message is registered, so the write-back finds each one. */
  lemma InstantiablesRegistered(entries: seq<ContractInfo>, isAddress: string -> bool, ps: seq<Pending>)
    requires InstantiatePlan(entries, isAddress, ps).Ok?
    ensures forall k :: 0 <= k < |WithMessage(ps)| ==> Lookup(entries, WithMessage(ps)[k].contract.display).Some?
  {
    InstantiatePlanSkipsSilent(entries, isAddress, ps);
    forall k | 0 <= k < |WithMessage(ps)|
      ensures Lookup(entries, WithMessage(ps)[k].contract.display).Some?
    {
      var h := WithMessage(ps)[k];
      assert h in ps && HasMessage(h);
      var i :| 0 <= i < |ps| && ps[i] == h;
    }
  }

  // ----- Writing the chain's answer back -----

  /**
   * StoreCode's write-back loop: through `get_contract_mut` the entry found
   * by display form gets the code id; without one, `add_contract_from`
   * registers the contract under its name with no address.
   */
  method WriteCodeIds(config: Config, cs: seq<Contract>, ids: seq<u64>)
    requires |ids| == |cs| && ActiveIndex(config.envs).Some?
    modifies config`envs
    ensures config.envs == WithActiveEntries(old(config.envs), RecordCodeIds(ActiveEntries(old(config.envs)), cs, ids))
  {
    ghost var envs0 := config.envs;
    ghost var e0 := ActiveEntries(envs0);
    for i := 0 to |cs|
      invariant config.envs == WithActiveEntries(envs0, RecordCodeIds(e0, cs[..i], ids[..i]))
    {
      ghost var prev := RecordCodeIds(e0, cs[..i], ids[..i]);
      WithActiveEntriesKeepsActive(envs0, prev, prev);
      CodeIdsPrefixStep(e0, cs, ids, i);
      var c := cs[i];
      var slot := config.GetContractSlot(c.display);
      if slot.Ok? {
        var info := config.envs[slot.value.env].contracts[slot.value.entry];
        ActiveSet(envs0, prev, slot.value.entry, info.(codeId := Some(ids[i])));
        config.SetEntry(slot.value, info.(codeId := Some(ids[i])));
      } else {
        ActiveUpsert(envs0, prev, ContractInfo(c.name, None, Some(ids[i])));
        var added := config.AddContractFrom(ContractInfo(c.name, None, Some(ids[i])));
        assert added.Ok?;
      }
    }
    assert cs[..|cs|] == cs && ids[..|ids|] == ids;
  }

  /** Instantiate's write-back loop: the k-th contract with a message gets the k-th address. */
  method WriteAddresses(config: Config, hs: seq<Pending>, addrs: seq<string>)
    requires |addrs| == |hs| && ActiveIndex(config.envs).Some?
    requires forall k :: 0 <= k < |hs| ==> Lookup(ActiveEntries(config.envs), hs[k].contract.display).Some?
    modifies config`envs
    ensures config.envs == WithActiveEntries(old(config.envs), RecordAddresses(ActiveEntries(old(config.envs)), hs, addrs))
  {
    ghost var envs0 := config.envs;
    ghost var e0 := ActiveEntries(envs0);
    for k := 0 to |hs|
      invariant config.envs == WithActiveEntries(envs0, RecordAddresses(e0, hs[..k], addrs[..k]))
    {
      ghost var prev := RecordAddresses(e0, hs[..k], addrs[..k]);
      WithActiveEntriesKeepsActive(envs0, prev, prev);
      AddressesPrefixStep(e0, hs, addrs, k);
      var c := hs[k].contract;
      SameNamesSameIndex(prev, e0, c.display);
      var slot := config.GetContractSlot(c.display);
      assert slot.Ok?;
      var info := config.envs[slot.value.env].contracts[slot.value.entry];
      ActiveSet(envs0, prev, slot.value.entry, info.(addr := Some(addrs[k])));
      config.SetEntry(slot.value, info.(addr := Some(addrs[k])));
    }
    assert hs[..|hs|] == hs && addrs[..|addrs|] == addrs;
  }

  /**
   * ExternalInstantiate's write-back loop: contract by contract and external
   * by external, a running index picks the address, and `add_contract_from`
   * registers the external under its own name.
   */
  method WriteExternals(config: Config, cs: seq<Contract>, addrs: seq<string>)
    requires |addrs| >= |Owned(cs)| && ActiveIndex(config.envs).Some?
    modifies config`envs
    ensures var n := |Owned(cs)|;
      config.envs == WithActiveEntries(old(config.envs), RecordExternals(ActiveEntries(old(config.envs)), Owned(cs), addrs[..n]))
  {
    ghost var envs0 := config.envs;
    ghost var e0 := ActiveEntries(envs0);
    ghost var owned := Owned(cs);
    var index := 0;
    for i := 0 to |cs|
      invariant index == |Owned(cs[..i])| <= |owned|
      invariant config.envs == WithActiveEntries(envs0, RecordExternals(e0, owned[..index], addrs[..index]))
    {
      OwnedGrows(cs, i);
      forall j | 0 <= j < |cs[i].externals|
        ensures owned[index + j] == (cs[i], cs[i].externals[j])
      {
        OwnedAt(cs, i, j);
      }
      index := WriteOwnExternals(config, cs[i], addrs, index, envs0, e0, owned);
    }
    assert cs[..|cs|] == cs;
    assert index == |owned| && owned[..index] == owned;
  }

  /**
   * The inner loop of ExternalInstantiate's write-back: the externals of one
   * contract, from the running index on.
   */
  method WriteOwnExternals(config: Config, c: Contract, addrs: seq<string>, index: nat,
                           ghost envs0: seq<Env>, ghost e0: seq<ContractInfo>, ghost owned: seq<(Contract, External<Json>)>)
    returns (next: nat)
    requires ActiveIndex(envs0).Some? && index + |c.externals| <= |owned| <= |addrs|
    requires forall j :: 0 <= j < |c.externals| ==> owned[index + j] == (c, c.externals[j])
    requires config.envs == WithActiveEntries(envs0, RecordExternals(e0, owned[..index], addrs[..index]))
    modifies config`envs
    ensures next == index + |c.externals|
    ensures config.envs == WithActiveEntries(envs0, RecordExternals(e0, owned[..next], addrs[..next]))
  {
    next := index;
    for j := 0 to |c.externals|
      invariant next == index + j
      invariant config.envs == WithActiveEntries(envs0, RecordExternals(e0, owned[..next], addrs[..next]))
    {
      var e := c.externals[j];
      assert owned[index + j] == (c, e);
      ExternalsPrefixStep(envs0, e0, owned, addrs, next);
      var added := config.AddContractFrom(ExternalEntry(e, addrs[next]));
      assert added.Ok?;
      next := next + 1;
    }
  }

  /** One more external on the prefix is one more upsert into the active list. */
  lemma ExternalsPrefixStep(envs0: seq<Env>, e0: seq<ContractInfo>, owned: seq<(Contract, External<Json>)>, addrs: seq<string>, k: nat)
    requires ActiveIndex(envs0).Some? && k < |owned| <= |addrs|
    ensures var cur := WithActiveEntries(envs0, RecordExternals(e0, owned[..k], addrs[..k]));
      var a := ActiveIndex(envs0).value;
      ActiveIndex(cur) == ActiveIndex(envs0) &&
      cur[a := cur[a].(contracts := Upsert(cur[a].contracts, ExternalEntry(owned[k].1, addrs[k])))]
        == WithActiveEntries(envs0, RecordExternals(e0, owned[..k + 1], addrs[..k + 1]))
  {
    assert owned[..k + 1][..k] == owned[..k] && addrs[..k + 1][..k] == addrs[..k];
    ActiveUpsert(envs0, RecordExternals(e0, owned[..k], addrs[..k]), ExternalEntry(owned[k].1, addrs[k]));
  }

  /** Upserting into the active list of a rewritten environment list is rewriting it with the upserted list. */
  lemma ActiveUpsert(envs0: seq<Env>, entries: seq<ContractInfo>, c: ContractInfo)
    requires ActiveIndex(envs0).Some?
    ensures ActiveIndex(WithActiveEntries(envs0, entries)) == ActiveIndex(envs0)
    ensures var cur := WithActiveEntries(envs0, entries);
      var a := ActiveIndex(envs0).value;
      cur[a := cur[a].(contracts := Upsert(cur[a].contracts, c))] == WithActiveEntries(envs0, Upsert(entries, c))
  {
    WithActiveEntriesKeepsActive(envs0, entries, Upsert(entries, c));
  }

  /** Overwriting one entry of the active list of a rewritten environment list is rewriting it with the overwritten list. */
  lemma ActiveSet(envs0: seq<Env>, entries: seq<ContractInfo>, k: nat, c: ContractInfo)
    requires ActiveIndex(envs0).Some? && k < |entries|
    ensures ActiveIndex(WithActiveEntries(envs0, entries)) == ActiveIndex(envs0)
    ensures var cur := WithActiveEntries(envs0, entries);
      var a := ActiveIndex(envs0).value;
      cur[a := cur[a].(contracts := cur[a].contracts[k := c])] == WithActiveEntries(envs0, entries[k := c])
  {
    WithActiveEntriesKeepsActive(envs0, entries, entries[k := c]);
  }

  /** One more contract on the prefix is one more code id recorded. */
  lemma CodeIdsPrefixStep(e0: seq<ContractInfo>, cs: seq<Contract>, ids: seq<u64>, k: nat)
    requires k < |cs| == |ids|
    ensures RecordCodeIds(e0, cs[..k + 1], ids[..k + 1]) == RecordCodeId(RecordCodeIds(e0, cs[..k], ids[..k]), cs[k], ids[k])
  {
    assert cs[..k + 1][..k] == cs[..k] && ids[..k + 1][..k] == ids[..k];
  }

  /** One more pending contract on the prefix is one more address recorded. */
  lemma AddressesPrefixStep(e0: seq<ContractInfo>, hs: seq<Pending>, addrs: seq<string>, k: nat)
    requires k < |hs| == |addrs|
    ensures RecordAddresses(e0, hs[..k + 1], addrs[..k + 1]) == RecordAddress(RecordAddresses(e0, hs[..k], addrs[..k]), hs[k].contract, addrs[k])
  {
    assert hs[..k + 1][..k] == hs[..k] && addrs[..k + 1][..k] == addrs[..k];
  }

  /** The i-th contract's externals follow those of the contracts before it. */
  lemma OwnedGrows(cs: seq<Contract>, i: nat)
    requires i < |cs|
    ensures |Owned(cs[..i + 1])| == |Owned(cs[..i])| + |cs[i].externals| <= |Owned(cs)|
  {
    PairsAt(cs, Externals, i);
  }

  /** The j-th external of the i-th contract sits right after the externals of the contracts before it. */
  lemma OwnedAt(cs: seq<Contract>, i: nat, j: nat)
    requires i < |cs| && j < |cs[i].externals|
    ensures |Owned(cs[..i])| + j < |Owned(cs)|
    ensures Owned(cs)[|Owned(cs[..i])| + j] == (cs[i], cs[i].externals[j])
  {
    PairsAt(cs, Externals, i);
  }
}
