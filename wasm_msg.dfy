/**
 * `msg_contract` of src/wasm_msg.rs, the stage engine of the original crate.
 * It loads the registry, resolves the active chain (creating an environment
 * or a chain through prompts when needed) and key, requires a gRPC
 * endpoint, then runs one stage: a request list is built in a loop over the
 * contracts, each message first passing through `replace_strings` against
 * the active environment's contracts; the list goes to the chain as one
 * batch; the answer is written back position by position and the registry
 * is saved. Unlike the newer engine, every stage submits even an empty list,
 * SetConfig ends the whole stage at the first contract without a config
 * message, and Instantiate gives an address to every contract.
 *
 * The functions below state each stage over the active environment's
 * contract list (`entries`); the methods after them are the loops, proved
 * against those functions. `isAddress` stands for `Address::from_str`
 * accepting a text; a rejected text is the panic of its `unwrap`.
 */
module WasmMsg {
  import opened Wrappers
  import opened Types
  import opened Seqs
  import opened Environments
  import opened Substitution
  import opened ChainClient
  import opened LegacyRegistry
  import opened LegacyContract

  datatype DeploymentStage = StoreCode | Instantiate | ExternalInstantiate | SetConfig | SetUp | Migrate

  // ----- Before any stage -----

  /** The preamble's outcome: the chain and key, and the chains and environments after its prompts. */
  datatype Prepared = Prepared(result: Result<(LegacyChain, UserKey), DeployError>, chains: seq<LegacyChain>, envs: seq<Env>)

  /**
   * `get_active_chain_info`, then `get_active_key`, then the gRPC endpoint:
   * the first failure is the result, and a chain without a gRPC endpoint is
   * `MissingGRpc`, found before any request is built.
   */
  function Preamble(chains: seq<LegacyChain>, envs: seq<Env>, keys: seq<UserKey>, a: EnvAnswers, entered: Option<LegacyChain>): (p: Prepared)
    ensures p.chains == ActiveChainInfo(chains, envs, keys, a, entered).chains
    ensures p.envs == ActiveChainInfo(chains, envs, keys, a, entered).envs
    ensures ActiveChainInfo(chains, envs, keys, a, entered).result.Err? ==>
      p.result == Err(ActiveChainInfo(chains, envs, keys, a, entered).result.error)
    ensures ActiveChainInfo(chains, envs, keys, a, entered).result.Ok? && ActiveKey(p.envs, keys).Err? ==>
      p.result == Err(ActiveKey(p.envs, keys).error)
    ensures ActiveChainInfo(chains, envs, keys, a, entered).result.Ok? && ActiveKey(p.envs, keys).Ok? ==>
      if ActiveChainInfo(chains, envs, keys, a, entered).result.value.grpcEndpoint.None? then p.result == Err(MissingGRpc)
      else p.result == Ok((ActiveChainInfo(chains, envs, keys, a, entered).result.value, ActiveKey(p.envs, keys).value))
    ensures p.result.Ok? ==> ActiveIndex(p.envs).Some? && p.result.value.0.grpcEndpoint.Some?
  {
    var ce := ActiveChainInfo(chains, envs, keys, a, entered);
    match ce.result
    case Err(e) => Prepared(Err(e), ce.chains, ce.envs)
    case Ok(info) =>
      match ActiveKey(ce.envs, keys)
      case Err(e) => Prepared(Err(e), ce.chains, ce.envs)
      case Ok(key) =>
        if info.grpcEndpoint.None? then Prepared(Err(MissingGRpc), ce.chains, ce.envs)
        else Prepared(Ok((info, key)), ce.chains, ce.envs)
  }

  // ----- StoreCode -----

  function StoreItem(fs: FileSystem, c: Descriptor): Result<seq<StoreRequest>, DeployError> {
    var p := ArtifactPath(c);
    if fs.IsFile(p) then Ok([StoreRequest(fs.files[p])]) else Err(Io(p))
  }

  function StoreStep(fs: FileSystem): Descriptor -> Result<seq<StoreRequest>, DeployError> {
    (c: Descriptor) => StoreItem(fs, c)
  }

  /** The store requests, one per contract, or the first unreadable artifact. */
  function StorePlan(fs: FileSystem, cs: seq<Descriptor>): Result<seq<StoreRequest>, DeployError> {
    TryFlatMap(cs, StoreStep(fs))
  }

  /**
   * StoreCode reads `./artifacts/<name>.wasm` for every contract: it succeeds
   * exactly when all exist, the i-th request then carrying the i-th file;
   * otherwise it fails on the first missing one.
   */
  lemma StorePlanReadsEveryArtifact(fs: FileSystem, cs: seq<Descriptor>)
    ensures StorePlan(fs, cs).Ok? <==> forall i :: 0 <= i < |cs| ==> fs.IsFile(ArtifactPath(cs[i]))
    ensures StorePlan(fs, cs).Ok? ==>
      && |StorePlan(fs, cs).value| == |cs|
      && forall i :: 0 <= i < |cs| ==> StorePlan(fs, cs).value[i] == StoreRequest(fs.files[ArtifactPath(cs[i])])
    ensures StorePlan(fs, cs).Err? ==> exists i ::
      && 0 <= i < |cs| && StorePlan(fs, cs).error == Io(ArtifactPath(cs[i]))
      && !fs.IsFile(ArtifactPath(cs[i]))
      && forall j :: 0 <= j < i ==> fs.IsFile(ArtifactPath(cs[j]))
  {
    if forall i :: 0 <= i < |cs| ==> fs.IsFile(ArtifactPath(cs[i])) {
      TryFlatMapSingles(cs, StoreStep(fs));
    }
  }

  /** One code id written back: onto the entry found by display form, or a new entry under the contract's name with no address. */
  function RecordCodeId(entries: seq<ContractInfo>, c: Descriptor, id: u64): (r: seq<ContractInfo>)
    ensures |r| >= |entries| && forall i :: 0 <= i < |entries| ==> r[i].name == entries[i].name
  {
    match ContractIndex(entries, c.display)
    case Some(k) => entries[k := entries[k].(codeId := Some(id))]
    case None => Upsert(entries, ContractInfo(c.name, None, Some(id)))
  }

  /** The StoreCode write-back: `ids[i]` goes to `cs[i]`, in contract order. */
  function RecordCodeIds(entries: seq<ContractInfo>, cs: seq<Descriptor>, ids: seq<u64>): (r: seq<ContractInfo>)
    requires |ids| == |cs|
    ensures |r| >= |entries| && forall i :: 0 <= i < |entries| ==> r[i].name == entries[i].name
    decreases |cs|
  {
    if |cs| == 0 then entries
    else
      var n := |cs| - 1;
      RecordCodeId(RecordCodeIds(entries, cs[..n], ids[..n]), cs[n], ids[n])
  }

  /** The address an entry of that name had before, if any. */
  function PriorAddr(entries: seq<ContractInfo>, name: string): Option<string> {
    match Lookup(entries, name)
    case Some(info) => info.addr
    case None => None
  }

  /**
   * One code id written back, for a contract whose display form is its name:
   * the entry gets the code id and keeps its address (a new entry has none);
   * no other name's lookup changes.
   */
  lemma RecordCodeIdLookup(entries: seq<ContractInfo>, c: Descriptor, id: u64, n: string)
    requires c.display == c.name
    ensures Lookup(RecordCodeId(entries, c, id), c.name) == Some(ContractInfo(c.name, PriorAddr(entries, c.name), Some(id)))
    ensures n != c.name ==> Lookup(RecordCodeId(entries, c, id), n) == Lookup(entries, n)
  {
    var r := RecordCodeId(entries, c, id);
    match ContractIndex(entries, c.display)
    case Some(k) =>
      SameNamesSameIndex(r, entries, c.name);
      SameNamesSameIndex(r, entries, n);
      assert r[k] == ContractInfo(c.name, entries[k].addr, Some(id));
    case None =>
      UpsertLookup(entries, ContractInfo(c.name, None, Some(id)), n);
  }

  /**
   * StoreCode's write-back, for contracts named by their display forms with
   * distinct names: afterwards the i-th contract's entry carries `ids[i]` and
   * the address it had before (none if it was missing), and every other
   * name resolves as before.
   */
  lemma RecordCodeIdsPositional(entries: seq<ContractInfo>, cs: seq<Descriptor>, ids: seq<u64>, n: string)
    requires |ids| == |cs|
    requires forall i :: 0 <= i < |cs| ==> cs[i].display == cs[i].name
    requires forall i, j :: 0 <= i < j < |cs| ==> cs[i].name != cs[j].name
    ensures forall i :: 0 <= i < |cs| ==>
      Lookup(RecordCodeIds(entries, cs, ids), cs[i].name) == Some(ContractInfo(cs[i].name, PriorAddr(entries, cs[i].name), Some(ids[i])))
    ensures (forall i :: 0 <= i < |cs| ==> cs[i].name != n) ==> Lookup(RecordCodeIds(entries, cs, ids), n) == Lookup(entries, n)
  {
    forall i | 0 <= i < |cs|
      ensures Lookup(RecordCodeIds(entries, cs, ids), cs[i].name) == Some(ContractInfo(cs[i].name, PriorAddr(entries, cs[i].name), Some(ids[i])))
    {
      RecordCodeIdsAt(entries, cs, ids, i);
    }
    if forall i :: 0 <= i < |cs| ==> cs[i].name != n {
      RecordCodeIdsElsewhere(entries, cs, ids, n);
    }
  }

  /** The write-back leaves alone a name that none of the contracts has. */
  lemma {:induction false} RecordCodeIdsElsewhere(entries: seq<ContractInfo>, cs: seq<Descriptor>, ids: seq<u64>, n: string)
    requires |ids| == |cs|
    requires forall i :: 0 <= i < |cs| ==> cs[i].display == cs[i].name && cs[i].name != n
    ensures Lookup(RecordCodeIds(entries, cs, ids), n) == Lookup(entries, n)
  {
    if |cs| > 0 {
      var m := |cs| - 1;
      assert forall i :: 0 <= i < m ==> cs[..m][i] == cs[i];
      RecordCodeIdsElsewhere(entries, cs[..m], ids[..m], n);
      RecordCodeIdLookup(RecordCodeIds(entries, cs[..m], ids[..m]), cs[m], ids[m], n);
    }
  }

  /** The write-back, seen from one contract: it ends with its own code id and its earlier address. */
  lemma {:induction false} RecordCodeIdsAt(entries: seq<ContractInfo>, cs: seq<Descriptor>, ids: seq<u64>, i: nat)
    requires |ids| == |cs| && i < |cs|
    requires forall k :: 0 <= k < |cs| ==> cs[k].display == cs[k].name
    requires forall k, j :: 0 <= k < j < |cs| ==> cs[k].name != cs[j].name
    ensures Lookup(RecordCodeIds(entries, cs, ids), cs[i].name) == Some(ContractInfo(cs[i].name, PriorAddr(entries, cs[i].name), Some(ids[i])))
  {
    var m := |cs| - 1;
    var init := cs[..m];
    var prev := RecordCodeIds(entries, init, ids[..m]);
    assert forall k :: 0 <= k < m ==> init[k] == cs[k];
    if i == m {
      RecordCodeIdsElsewhere(entries, init, ids[..m], cs[m].name);
      RecordCodeIdLookup(prev, cs[m], ids[m], cs[m].name);
    } else {
      RecordCodeIdsAt(entries, init, ids[..m], i);
      assert ids[..m][i] == ids[i];
      RecordCodeIdLookup(prev, cs[m], ids[m], cs[i].name);
    }
  }

  // ----- Instantiate -----

  /**
   * A contract's instantiate request: its message (whose failure aborts the
   * stage), rewritten; then its registered entry (`ContractNotFound`), the
   * entry's code id (`CodeIdNotFound`) and the admin's parse.
   */
  function InstantiateItem(entries: seq<ContractInfo>, isAddress: string -> bool, c: Descriptor): Result<seq<InstantiateRequest>, DeployError> {
    match c.instantiateMsg
    case Err(e) => Err(e)
    case Ok(m) =>
      match Rewritten(m, entries)
      case Err(e) => Err(e)
      case Ok(msg) =>
        match Lookup(entries, c.display)
        case None => Err(ContractNotFound(None))
        case Some(info) =>
          match info.codeId
          case None => Err(CodeIdNotFound)
          case Some(id) =>
            if isAddress(c.admin) then Ok([InstantiateRequest(id, msg, c.name, Some(c.admin))])
            else Err(Panic(UnwrapPanic))
  }

  function InstantiateStep(entries: seq<ContractInfo>, isAddress: string -> bool): Descriptor -> Result<seq<InstantiateRequest>, DeployError> {
    (c: Descriptor) => InstantiateItem(entries, isAddress, c)
  }

  function InstantiatePlan(entries: seq<ContractInfo>, isAddress: string -> bool, cs: seq<Descriptor>): Result<seq<InstantiateRequest>, DeployError> {
    TryFlatMap(cs, InstantiateStep(entries, isAddress))
  }

  /** What a contract needs to be instantiated by this engine. */
  predicate Instantiable(entries: seq<ContractInfo>, isAddress: string -> bool, c: Descriptor) {
    && c.instantiateMsg.Ok?
    && Rewritten(c.instantiateMsg.value, entries).Ok?
    && Lookup(entries, c.display).Some?
    && Lookup(entries, c.display).value.codeId.Some?
    && isAddress(c.admin)
  }

  /**
   * Instantiate requires every contract to yield a message, and the plan
   * holds one request per contract, in order: the registered code id, the
   * rewritten message, the contract's name as label and its admin.
   */
  lemma InstantiatePlanCoversAll(entries: seq<ContractInfo>, isAddress: string -> bool, cs: seq<Descriptor>)
    ensures InstantiatePlan(entries, isAddress, cs).Ok? <==> forall i :: 0 <= i < |cs| ==> Instantiable(entries, isAddress, cs[i])
    ensures InstantiatePlan(entries, isAddress, cs).Ok? ==>
      && |InstantiatePlan(entries, isAddress, cs).value| == |cs|
      && forall i :: 0 <= i < |cs| ==> InstantiatePlan(entries, isAddress, cs).value[i] == InstantiateRequest(
           Lookup(entries, cs[i].display).value.codeId.value,
           Rewritten(cs[i].instantiateMsg.value, entries).value,
           cs[i].name,
           Some(cs[i].admin))
  {
    var f := InstantiateStep(entries, isAddress);
    assert forall i :: 0 <= i < |cs| ==> (f(cs[i]).Ok? <==> Instantiable(entries, isAddress, cs[i]));
    if forall i :: 0 <= i < |cs| ==> Instantiable(entries, isAddress, cs[i]) {
      TryFlatMapSingles(cs, f);
    }
  }

  /** One address written back onto the entry found by display form. */
  function RecordAddress(entries: seq<ContractInfo>, c: Descriptor, addr: string): (r: seq<ContractInfo>)
    ensures |r| == |entries| && forall i :: 0 <= i < |entries| ==> r[i].name == entries[i].name
  {
    match ContractIndex(entries, c.display)
    case Some(k) => entries[k := entries[k].(addr := Some(addr))]
    case None => entries
  }

  /** The Instantiate write-back: `addrs[i]` goes to `cs[i]`, every contract in order. */
  function RecordAddresses(entries: seq<ContractInfo>, cs: seq<Descriptor>, addrs: seq<string>): (r: seq<ContractInfo>)
    requires |addrs| == |cs|
    ensures |r| == |entries| && forall i :: 0 <= i < |entries| ==> r[i].name == entries[i].name
    decreases |cs|
  {
    if |cs| == 0 then entries
    else
      var n := |cs| - 1;
      RecordAddress(RecordAddresses(entries, cs[..n], addrs[..n]), cs[n], addrs[n])
  }

  /** One address written back: a registered entry gets it and keeps its code id; other names are unaffected. */
  lemma RecordAddressLookup(entries: seq<ContractInfo>, c: Descriptor, addr: string, n: string)
    ensures Lookup(entries, c.display).Some? ==>
      Lookup(RecordAddress(entries, c, addr), c.display) == Some(Lookup(entries, c.display).value.(addr := Some(addr)))
    ensures n != c.display ==> Lookup(RecordAddress(entries, c, addr), n) == Lookup(entries, n)
  {
    var r := RecordAddress(entries, c, addr);
    SameNamesSameIndex(r, entries, c.display);
    SameNamesSameIndex(r, entries, n);
  }

  /**
   * Instantiate's write-back, for registered contracts with distinct display
   * forms: the i-th contract's entry gets the i-th address and keeps
   * everything else; names of no contract resolve as before.
   */
  lemma RecordAddressesPositional(entries: seq<ContractInfo>, cs: seq<Descriptor>, addrs: seq<string>, n: string)
    requires |addrs| == |cs|
    requires forall i :: 0 <= i < |cs| ==> Lookup(entries, cs[i].display).Some?
    requires forall i, j :: 0 <= i < j < |cs| ==> cs[i].display != cs[j].display
    ensures forall i :: 0 <= i < |cs| ==>
      Lookup(RecordAddresses(entries, cs, addrs), cs[i].display) == Some(Lookup(entries, cs[i].display).value.(addr := Some(addrs[i])))
    ensures (forall i :: 0 <= i < |cs| ==> cs[i].display != n) ==> Lookup(RecordAddresses(entries, cs, addrs), n) == Lookup(entries, n)
  {
    forall i | 0 <= i < |cs|
      ensures Lookup(RecordAddresses(entries, cs, addrs), cs[i].display) == Some(Lookup(entries, cs[i].display).value.(addr := Some(addrs[i])))
    {
      RecordAddressesAt(entries, cs, addrs, i);
    }
    if forall i :: 0 <= i < |cs| ==> cs[i].display != n {
      RecordAddressesElsewhere(entries, cs, addrs, n);
    }
  }

  /** The write-back leaves alone a name that none of the contracts has. */
  lemma {:induction false} RecordAddressesElsewhere(entries: seq<ContractInfo>, cs: seq<Descriptor>, addrs: seq<string>, n: string)
    requires |addrs| == |cs|
    requires forall i :: 0 <= i < |cs| ==> cs[i].display != n
    ensures Lookup(RecordAddresses(entries, cs, addrs), n) == Lookup(entries, n)
  {
    if |cs| > 0 {
      var m := |cs| - 1;
      assert forall i :: 0 <= i < m ==> cs[..m][i] == cs[i];
      RecordAddressesElsewhere(entries, cs[..m], addrs[..m], n);
      RecordAddressLookup(RecordAddresses(entries, cs[..m], addrs[..m]), cs[m], addrs[m], n);
    }
  }

  /** The write-back, seen from one registered contract: its entry ends with its own address. */
  lemma {:induction false} RecordAddressesAt(entries: seq<ContractInfo>, cs: seq<Descriptor>, addrs: seq<string>, i: nat)
    requires |addrs| == |cs| && i < |cs|
    requires Lookup(entries, cs[i].display).Some?
    requires forall k, j :: 0 <= k < j < |cs| ==> cs[k].display != cs[j].display
    ensures Lookup(RecordAddresses(entries, cs, addrs), cs[i].display) == Some(Lookup(entries, cs[i].display).value.(addr := Some(addrs[i])))
  {
    var m := |cs| - 1;
    var init := cs[..m];
    var prev := RecordAddresses(entries, init, addrs[..m]);
    assert forall k :: 0 <= k < m ==> init[k] == cs[k];
    if i == m {
      RecordAddressesElsewhere(entries, init, addrs[..m], cs[m].display);
      RecordAddressLookup(prev, cs[m], addrs[m], cs[m].display);
    } else {
      RecordAddressesAt(entries, init, addrs[..m], i);
      assert addrs[..m][i] == addrs[i];
      RecordAddressLookup(prev, cs[m], addrs[m], cs[i].display);
    }
  }

  // ----- ExternalInstantiate -----

  /** An external's request: its rewritten message, under its own code id and name, with its owner's admin. */
  function ExternalItem(entries: seq<ContractInfo>, isAddress: string -> bool, admin: string, e: ExternalInstantiate): Result<seq<InstantiateRequest>, DeployError> {
    match Rewritten(e.msg, entries)
    case Err(err) => Err(err)
    case Ok(msg) =>
      if isAddress(admin) then Ok([InstantiateRequest(e.codeId, msg, e.name, Some(admin))])
      else Err(Panic(UnwrapPanic))
  }

  function ExternalStep(entries: seq<ContractInfo>, isAddress: string -> bool, admin: string): ExternalInstantiate -> Result<seq<InstantiateRequest>, DeployError> {
    (e: ExternalInstantiate) => ExternalItem(entries, isAddress, admin, e)
  }

  /** A contract's part of the list: its externals in order, or the failure of `external_instantiate_msgs`. */
  function OwnerItem(entries: seq<ContractInfo>, isAddress: string -> bool, c: Descriptor): Result<seq<InstantiateRequest>, DeployError> {
    match c.externals
    case Err(e) => Err(e)
    case Ok(es) => TryFlatMap(es, ExternalStep(entries, isAddress, c.admin))
  }

  function OwnerStep(entries: seq<ContractInfo>, isAddress: string -> bool): Descriptor -> Result<seq<InstantiateRequest>, DeployError> {
    (c: Descriptor) => OwnerItem(entries, isAddress, c)
  }

  function ExternalPlan(entries: seq<ContractInfo>, isAddress: string -> bool, cs: seq<Descriptor>): Result<seq<InstantiateRequest>, DeployError> {
    TryFlatMap(cs, OwnerStep(entries, isAddress))
  }

  /** A contract's externals, none when they cannot be produced. */
  function ExternalsOf(c: Descriptor): seq<ExternalInstantiate> {
    if c.externals.Ok? then c.externals.value else []
  }

  /** Every external with its owner, contract by contract. */
  function Owned(cs: seq<Descriptor>): seq<(Descriptor, ExternalInstantiate)> {
    Pairs(cs, ExternalsOf)
  }

  /** The request of an owned external once everything checks out. */
  function OwnedRequest(entries: seq<ContractInfo>): (Descriptor, ExternalInstantiate) -> InstantiateRequest {
    (c: Descriptor, e: ExternalInstantiate) =>
      InstantiateRequest(e.codeId, if Rewritten(e.msg, entries).Ok? then Rewritten(e.msg, entries).value else e.msg, e.name, Some(c.admin))
  }

  /** What one external needs: a rewritable message and an admin that parses. */
  predicate ExternalReady(entries: seq<ContractInfo>, isAddress: string -> bool, c: Descriptor, e: ExternalInstantiate) {
    Rewritten(e.msg, entries).Ok? && isAddress(c.admin)
  }

  /**
   * ExternalInstantiate's list, when every contract lists its externals and
   * each can be sent: one request per external, contract by contract and in
   * each contract's own order, under the external's code id and name with
   * its owner's admin.
   */
  lemma ExternalPlanOrder(entries: seq<ContractInfo>, isAddress: string -> bool, cs: seq<Descriptor>)
    requires forall i :: 0 <= i < |cs| ==> cs[i].externals.Ok?
    requires forall i, k :: 0 <= i < |cs| && 0 <= k < |ExternalsOf(cs[i])| ==> ExternalReady(entries, isAddress, cs[i], ExternalsOf(cs[i])[k])
    ensures ExternalPlan(entries, isAddress, cs).Ok?
    ensures |ExternalPlan(entries, isAddress, cs).value| == |Owned(cs)|
    ensures forall j :: 0 <= j < |Owned(cs)| ==> ExternalPlan(entries, isAddress, cs).value[j] == OwnedRequest(entries)(Owned(cs)[j].0, Owned(cs)[j].1)
  {
    var f := OwnerStep(entries, isAddress);
    var g := OwnedRequest(entries);
    forall i | 0 <= i < |cs|
      ensures f(cs[i]).Ok? && |f(cs[i]).value| == |ExternalsOf(cs[i])|
      ensures forall k :: 0 <= k < |ExternalsOf(cs[i])| ==> f(cs[i]).value[k] == g(cs[i], ExternalsOf(cs[i])[k])
    {
      var es := ExternalsOf(cs[i]);
      TryFlatMapSingles(es, ExternalStep(entries, isAddress, cs[i].admin));
    }
    TryFlatMapPairs(cs, f, ExternalsOf, g);
  }

  /** The registry entry an external gets: its name, the address the chain gave it, its code id. */
  function ExternalEntry(e: ExternalInstantiate, addr: string): ContractInfo {
    ContractInfo(e.name, Some(addr), Some(e.codeId))
  }

  /** The ExternalInstantiate write-back: a running index pairs the j-th external with the j-th address, upserted in order. */
  function RecordExternals(entries: seq<ContractInfo>, owned: seq<(Descriptor, ExternalInstantiate)>, addrs: seq<string>): seq<ContractInfo>
    requires |addrs| == |owned|
    decreases |owned|
  {
    if |owned| == 0 then entries
    else
      var n := |owned| - 1;
      Upsert(RecordExternals(entries, owned[..n], addrs[..n]), ExternalEntry(owned[n].1, addrs[n]))
  }

  /**
   * After the write-back, an external whose name no later external reuses is
   * registered under that name with its own address and code id.
   */
  lemma {:induction false} RecordExternalsAt(entries: seq<ContractInfo>, owned: seq<(Descriptor, ExternalInstantiate)>, addrs: seq<string>, j: nat)
    requires |addrs| == |owned| && j < |owned|
    requires forall k :: j < k < |owned| ==> owned[k].1.name != owned[j].1.name
    ensures Lookup(RecordExternals(entries, owned, addrs), owned[j].1.name) == Some(ExternalEntry(owned[j].1, addrs[j]))
    decreases |owned|
  {
    var m := |owned| - 1;
    var prev := RecordExternals(entries, owned[..m], addrs[..m]);
    var last := ExternalEntry(owned[m].1, addrs[m]);
    if j == m {
      UpsertLookup(prev, last, last.name);
    } else {
      assert owned[..m][j] == owned[j] && addrs[..m][j] == addrs[j];
      assert forall k :: j < k < m ==> owned[..m][k] == owned[k];
      RecordExternalsAt(entries, owned[..m], addrs[..m], j);
      UpsertLookup(prev, last, owned[j].1.name);
    }
  }

  /** A name that no external has resolves as before the write-back. */
  lemma {:induction false} RecordExternalsElsewhere(entries: seq<ContractInfo>, owned: seq<(Descriptor, ExternalInstantiate)>, addrs: seq<string>, n: string)
    requires |addrs| == |owned|
    requires forall k :: 0 <= k < |owned| ==> owned[k].1.name != n
    ensures Lookup(RecordExternals(entries, owned, addrs), n) == Lookup(entries, n)
    decreases |owned|
  {
    if |owned| > 0 {
      var m := |owned| - 1;
      var init := owned[..m];
      assert forall k :: 0 <= k < m ==> init[k].1.name != n by {
        forall k | 0 <= k < m ensures init[k].1.name != n {
          assert init[k] == owned[k];
        }
      }
      RecordExternalsElsewhere(entries, init, addrs[..m], n);
      var prev := RecordExternals(entries, init, addrs[..m]);
      var e := ExternalEntry(owned[m].1, addrs[m]);
      assert e.name != n;
      UpsertLookup(prev, e, n);
      assert RecordExternals(entries, owned, addrs) == Upsert(prev, e);
    }
  }

  // ----- SetConfig -----

  /** `get_contract_addr_mut` followed by the parse: the registered entry, its address (`NoAddr`), and the parse's panic. */
  function Target(entries: seq<ContractInfo>, isAddress: string -> bool, display: string): (r: Result<string, DeployError>)
    ensures Lookup(entries, display).None? ==> r == Err(ContractNotFound(None))
    ensures Lookup(entries, display).Some? && Lookup(entries, display).value.addr.None? ==> r == Err(NoAddr)
    ensures r.Ok? <==> Lookup(entries, display).Some? && Lookup(entries, display).value.addr.Some? && isAddress(Lookup(entries, display).value.addr.value)
    ensures r.Ok? ==> r.value == Lookup(entries, display).value.addr.value
  {
    match Lookup(entries, display)
    case None => Err(ContractNotFound(None))
    case Some(info) =>
      match info.addr
      case None => Err(NoAddr)
      case Some(addr) => if isAddress(addr) then Ok(addr) else Err(Panic(UnwrapPanic))
  }

  /**
   * A contract's config request: `Ok(None)` when it has no config message,
   * which ends the stage.
   */
  function SetConfigItem(entries: seq<ContractInfo>, isAddress: string -> bool, c: Descriptor): Result<Option<ExecRequest>, DeployError> {
    match c.configMsg
    case Err(e) => Err(e)
    case Ok(None) => Ok(None)
    case Ok(Some(m)) =>
      match Rewritten(m, entries)
      case Err(e) => Err(e)
      case Ok(msg) =>
        match Target(entries, isAddress, c.display)
        case Err(e) => Err(e)
        case Ok(addr) => Ok(Some(ExecRequest(msg, addr)))
  }

  /** Requests in front of what the rest of the loop yields; an exit or failure of the rest stays as it is. */
  function Prepend(qs: seq<ExecRequest>, rest: Result<Option<seq<ExecRequest>>, DeployError>): Result<Option<seq<ExecRequest>>, DeployError> {
    match rest
    case Ok(Some(rs)) => Ok(Some(qs + rs))
    case _ => rest
  }

  /**
   * The SetConfig loop, front to back: the first failure is the stage's
   * error, and the first contract without a config message ends the stage
   * (`Ok(None)`, nothing is sent).
   */
  function SetConfigPlan(entries: seq<ContractInfo>, isAddress: string -> bool, cs: seq<Descriptor>): Result<Option<seq<ExecRequest>>, DeployError>
    decreases |cs|
  {
    if |cs| == 0 then Ok(Some([]))
    else
      match SetConfigItem(entries, isAddress, cs[0])
      case Err(e) => Err(e)
      case Ok(None) => Ok(None)
      case Ok(Some(q)) => Prepend([q], SetConfigPlan(entries, isAddress, cs[1..]))
  }

  /** The contract has a config message and its request can be built. */
  predicate Configurable(entries: seq<ContractInfo>, isAddress: string -> bool, c: Descriptor) {
    SetConfigItem(entries, isAddress, c).Ok? && SetConfigItem(entries, isAddress, c).value.Some?
  }

  /**
   * SetConfig ends early exactly when some contract has no config message
   * while every contract before it yields its request; it sends a list
   * exactly when every contract yields one, the i-th request being the i-th
   * contract's.
   */
  lemma SetConfigPlanShape(entries: seq<ContractInfo>, isAddress: string -> bool, cs: seq<Descriptor>)
    ensures SetConfigPlan(entries, isAddress, cs) == Ok(None) <==>
      exists i :: 0 <= i < |cs| && SetConfigItem(entries, isAddress, cs[i]) == Ok(None) &&
        forall j :: 0 <= j < i ==> Configurable(entries, isAddress, cs[j])
    ensures (SetConfigPlan(entries, isAddress, cs).Ok? && SetConfigPlan(entries, isAddress, cs).value.Some?) <==>
      forall i :: 0 <= i < |cs| ==> Configurable(entries, isAddress, cs[i])
    ensures SetConfigPlan(entries, isAddress, cs).Ok? && SetConfigPlan(entries, isAddress, cs).value.Some? ==>
      && |SetConfigPlan(entries, isAddress, cs).value.value| == |cs|
      && forall i :: 0 <= i < |cs| ==> SetConfigPlan(entries, isAddress, cs).value.value[i] == SetConfigItem(entries, isAddress, cs[i]).value.value
  {
    SetConfigPlanStops(entries, isAddress, cs);
    SetConfigPlanSends(entries, isAddress, cs);
  }

  /** The early end: some contract has no config message, and every one before it yields its request. */
  lemma {:induction false} SetConfigPlanStops(entries: seq<ContractInfo>, isAddress: string -> bool, cs: seq<Descriptor>)
    ensures SetConfigPlan(entries, isAddress, cs) == Ok(None) <==> exists i :: StopsAt(entries, isAddress, cs, i)
    decreases |cs|
  {
    if |cs| > 0 {
      var rest := cs[1..];
      SetConfigPlanStops(entries, isAddress, rest);
      var head := SetConfigItem(entries, isAddress, cs[0]);
      if head.Ok? && head.value.Some? {
        assert SetConfigPlan(entries, isAddress, cs) == Prepend([head.value.value], SetConfigPlan(entries, isAddress, rest));
        if SetConfigPlan(entries, isAddress, rest) == Ok(None) {
          var k :| StopsAt(entries, isAddress, rest, k);
          StopsAtShift(entries, isAddress, cs, k);
        }
        if exists i :: StopsAt(entries, isAddress, cs, i) {
          var i :| StopsAt(entries, isAddress, cs, i);
          StopsAtShift(entries, isAddress, cs, i - 1);
        }
      } else if head != Ok(None) {
        forall i ensures !StopsAt(entries, isAddress, cs, i) {
          if i > 0 {
            assert !Configurable(entries, isAddress, cs[0]);
          }
        }
      } else {
        assert StopsAt(entries, isAddress, cs, 0);
      }
    }
  }

  /** The `i`-th contract is the first one without a config message, and every one before it yields its request. */
  ghost predicate StopsAt(entries: seq<ContractInfo>, isAddress: string -> bool, cs: seq<Descriptor>, i: int) {
    0 <= i < |cs| && SetConfigItem(entries, isAddress, cs[i]) == Ok(None) &&
    forall j :: 0 <= j < i ==> Configurable(entries, isAddress, cs[j])
  }

  /** Past a configurable first contract, the stopping place moves down by one. */
  lemma StopsAtShift(entries: seq<ContractInfo>, isAddress: string -> bool, cs: seq<Descriptor>, i: int)
    requires |cs| > 0 && Configurable(entries, isAddress, cs[0])
    ensures StopsAt(entries, isAddress, cs, i + 1) <==> StopsAt(entries, isAddress, cs[1..], i)
  {
    var rest := cs[1..];
    if StopsAt(entries, isAddress, cs, i + 1) {
      assert rest[i] == cs[i + 1];
      forall j | 0 <= j < i ensures Configurable(entries, isAddress, rest[j]) {
        assert rest[j] == cs[j + 1];
      }
    }
    if StopsAt(entries, isAddress, rest, i) {
      assert rest[i] == cs[i + 1];
      forall j | 0 <= j < i + 1 ensures Configurable(entries, isAddress, cs[j]) {
        if j > 0 { assert cs[j] == rest[j - 1]; }
      }
    }
  }

  /** The full plan: every contract yields its request, the i-th request being the i-th contract's. */
  lemma {:induction false} SetConfigPlanSends(entries: seq<ContractInfo>, isAddress: string -> bool, cs: seq<Descriptor>)
    ensures (SetConfigPlan(entries, isAddress, cs).Ok? && SetConfigPlan(entries, isAddress, cs).value.Some?) <==>
      forall i :: 0 <= i < |cs| ==> Configurable(entries, isAddress, cs[i])
    ensures SetConfigPlan(entries, isAddress, cs).Ok? && SetConfigPlan(entries, isAddress, cs).value.Some? ==>
      && |SetConfigPlan(entries, isAddress, cs).value.value| == |cs|
      && forall i :: 0 <= i < |cs| ==> SetConfigPlan(entries, isAddress, cs).value.value[i] == SetConfigItem(entries, isAddress, cs[i]).value.value
    decreases |cs|
  {
    if |cs| > 0 {
      var rest := cs[1..];
      SetConfigPlanSends(entries, isAddress, rest);
      var head := SetConfigItem(entries, isAddress, cs[0]);
      if head.Ok? && head.value.Some? {
        var tail := SetConfigPlan(entries, isAddress, rest);
        assert SetConfigPlan(entries, isAddress, cs) == Prepend([head.value.value], tail);
        if forall i :: 0 <= i < |rest| ==> Configurable(entries, isAddress, rest[i]) {
          forall i | 0 <= i < |cs| ensures Configurable(entries, isAddress, cs[i]) {
            if i > 0 { assert cs[i] == rest[i - 1]; }
          }
          var plan := [head.value.value] + tail.value.value;
          forall i | 0 <= i < |cs| ensures plan[i] == SetConfigItem(entries, isAddress, cs[i]).value.value {
            if i > 0 { assert plan[i] == tail.value.value[i - 1] && cs[i] == rest[i - 1]; }
          }
        } else {
          var k :| 0 <= k < |rest| && !Configurable(entries, isAddress, rest[k]);
          assert cs[k + 1] == rest[k];
        }
      } else {
        assert !Configurable(entries, isAddress, cs[0]);
      }
    }
  }

  // ----- SetUp -----

  /** One set-up message: rewritten, then sent to the contract's registered address, looked up again for each message. */
  function SetUpMsgItem(entries: seq<ContractInfo>, isAddress: string -> bool, display: string, m: Json): Result<seq<ExecRequest>, DeployError> {
    match Rewritten(m, entries)
    case Err(e) => Err(e)
    case Ok(msg) =>
      match Target(entries, isAddress, display)
      case Err(e) => Err(e)
      case Ok(addr) => Ok([ExecRequest(msg, addr)])
  }

  function SetUpMsgStep(entries: seq<ContractInfo>, isAddress: string -> bool, display: string): Json -> Result<seq<ExecRequest>, DeployError> {
    (m: Json) => SetUpMsgItem(entries, isAddress, display, m)
  }

  /** A contract's set-up requests, or the failure of `set_up_msgs`. */
  function SetUpItem(entries: seq<ContractInfo>, isAddress: string -> bool, c: Descriptor): Result<seq<ExecRequest>, DeployError> {
    match c.setUpMsgs
    case Err(e) => Err(e)
    case Ok(ms) => TryFlatMap(ms, SetUpMsgStep(entries, isAddress, c.display))
  }

  function SetUpStep(entries: seq<ContractInfo>, isAddress: string -> bool): Descriptor -> Result<seq<ExecRequest>, DeployError> {
    (c: Descriptor) => SetUpItem(entries, isAddress, c)
  }

  function SetUpPlan(entries: seq<ContractInfo>, isAddress: string -> bool, cs: seq<Descriptor>): Result<seq<ExecRequest>, DeployError> {
    TryFlatMap(cs, SetUpStep(entries, isAddress))
  }

  /** A contract's set-up messages, none when they cannot be produced. */
  function SetUpMsgsOf(c: Descriptor): seq<Json> {
    if c.setUpMsgs.Ok? then c.setUpMsgs.value else []
  }

  /** The request for one message of one contract once everything checks out. */
  function SetUpRequest(entries: seq<ContractInfo>, isAddress: string -> bool): (Descriptor, Json) -> ExecRequest {
    (c: Descriptor, m: Json) =>
      ExecRequest(if Rewritten(m, entries).Ok? then Rewritten(m, entries).value else m,
                  if Target(entries, isAddress, c.display).Ok? then Target(entries, isAddress, c.display).value else "")
  }

  /**
   * SetUp's list, when every contract lists its messages, each rewrites and
   * every contract with messages has a usable address: one request per
   * message, contract by contract and in each contract's own order, each to
   * its contract's registered address.
   */
  lemma SetUpPlanOrder(entries: seq<ContractInfo>, isAddress: string -> bool, cs: seq<Descriptor>)
    requires forall i :: 0 <= i < |cs| ==> cs[i].setUpMsgs.Ok?
    requires forall i, k :: 0 <= i < |cs| && 0 <= k < |SetUpMsgsOf(cs[i])| ==>
      Rewritten(SetUpMsgsOf(cs[i])[k], entries).Ok? && Target(entries, isAddress, cs[i].display).Ok?
    ensures SetUpPlan(entries, isAddress, cs).Ok?
    ensures |SetUpPlan(entries, isAddress, cs).value| == |Pairs(cs, SetUpMsgsOf)|
    ensures forall j :: 0 <= j < |Pairs(cs, SetUpMsgsOf)| ==>
      SetUpPlan(entries, isAddress, cs).value[j] == SetUpRequest(entries, isAddress)(Pairs(cs, SetUpMsgsOf)[j].0, Pairs(cs, SetUpMsgsOf)[j].1)
  {
    var f := SetUpStep(entries, isAddress);
    var g := SetUpRequest(entries, isAddress);
    forall i | 0 <= i < |cs|
      ensures f(cs[i]).Ok? && |f(cs[i]).value| == |SetUpMsgsOf(cs[i])|
      ensures forall k :: 0 <= k < |SetUpMsgsOf(cs[i])| ==> f(cs[i]).value[k] == g(cs[i], SetUpMsgsOf(cs[i])[k])
    {
      TryFlatMapSingles(SetUpMsgsOf(cs[i]), SetUpMsgStep(entries, isAddress, cs[i].display));
    }
    TryFlatMapPairs(cs, f, SetUpMsgsOf, g);
  }

  // ----- Migrate -----

  /**
   * A contract's migrate request: none without a migrate message; otherwise
   * the rewritten message, the registered entry (`ContractNotFound`), its
   * address (`AddrNotFound` naming it), its code id (`CodeIdNotFound`) and
   * the address's parse, checked in that order.
   */
  function MigrateItem(entries: seq<ContractInfo>, isAddress: string -> bool, c: Descriptor): Result<seq<MigrateRequest>, DeployError> {
    match c.migrateMsg
    case Err(e) => Err(e)
    case Ok(None) => Ok([])
    case Ok(Some(m)) =>
      match Rewritten(m, entries)
      case Err(e) => Err(e)
      case Ok(msg) =>
        match Lookup(entries, c.display)
        case None => Err(ContractNotFound(None))
        case Some(info) =>
          match info.addr
          case None => Err(AddrNotFound(Some(info.name)))
          case Some(addr) =>
            match info.codeId
            case None => Err(CodeIdNotFound)
            case Some(id) =>
              if isAddress(addr) then Ok([MigrateRequest(msg, addr, id)]) else Err(Panic(UnwrapPanic))
  }

  function MigrateStep(entries: seq<ContractInfo>, isAddress: string -> bool): Descriptor -> Result<seq<MigrateRequest>, DeployError> {
    (c: Descriptor) => MigrateItem(entries, isAddress, c)
  }

  function MigratePlan(entries: seq<ContractInfo>, isAddress: string -> bool, cs: seq<Descriptor>): Result<seq<MigrateRequest>, DeployError> {
    TryFlatMap(cs, MigrateStep(entries, isAddress))
  }

  /** A registered contract with neither an address nor a code id fails on the address. */
  lemma MigrateChecksAddrFirst(entries: seq<ContractInfo>, isAddress: string -> bool, c: Descriptor)
    requires c.migrateMsg.Ok? && c.migrateMsg.value.Some? && Rewritten(c.migrateMsg.value.value, entries).Ok?
    requires Lookup(entries, c.display).Some? && Lookup(entries, c.display).value.addr.None?
    ensures MigrateItem(entries, isAddress, c) == Err(AddrNotFound(Some(c.display)))
  {
  }

  predicate Migrates(c: Descriptor) {
    c.migrateMsg.Ok? && c.migrateMsg.value.Some?
  }

  /**
   * Migrate skips the contracts without a migrate message: when the others
   * all check out, the k-th request belongs to the k-th contract that has
   * one, sent to its registered address with its registered code id as the
   * new code id.
   */
  lemma MigratePlanSkipsSilent(entries: seq<ContractInfo>, isAddress: string -> bool, cs: seq<Descriptor>)
    requires MigratePlan(entries, isAddress, cs).Ok?
    ensures |MigratePlan(entries, isAddress, cs).value| == |Retain(cs, Migrates)|
    ensures forall k :: 0 <= k < |Retain(cs, Migrates)| ==>
      var c := Retain(cs, Migrates)[k];
      var info := Lookup(entries, c.display);
      && info.Some? && info.value.addr.Some? && info.value.codeId.Some?
      && MigratePlan(entries, isAddress, cs).value[k] ==
         MigrateRequest(Rewritten(c.migrateMsg.value.value, entries).value, info.value.addr.value, info.value.codeId.value)
  {
    var f := MigrateStep(entries, isAddress);
    TryFlatMapKeep(cs, f, Migrates);
  }

  // ----- The stage as a whole -----

  /** The batch a stage sends; `None` when SetConfig ends early. */
  function Plan(stage: DeploymentStage, entries: seq<ContractInfo>, fs: FileSystem, isAddress: string -> bool, cs: seq<Descriptor>): Result<Option<Batch>, DeployError> {
    match stage
    case StoreCode =>
      (match StorePlan(fs, cs) case Err(e) => Err(e) case Ok(rs) => Ok(Some(StoreBatch(rs))))
    case Instantiate =>
      (match InstantiatePlan(entries, isAddress, cs) case Err(e) => Err(e) case Ok(rs) => Ok(Some(InstantiateBatch(rs))))
    case ExternalInstantiate =>
      (match ExternalPlan(entries, isAddress, cs) case Err(e) => Err(e) case Ok(rs) => Ok(Some(InstantiateBatch(rs))))
    case SetConfig =>
      (match SetConfigPlan(entries, isAddress, cs)
       case Err(e) => Err(e)
       case Ok(None) => Ok(None)
       case Ok(Some(rs)) => Ok(Some(ExecBatch(rs))))
    case SetUp =>
      (match SetUpPlan(entries, isAddress, cs) case Err(e) => Err(e) case Ok(rs) => Ok(Some(ExecBatch(rs))))
    case Migrate =>
      (match MigratePlan(entries, isAddress, cs) case Err(e) => Err(e) case Ok(rs) => Ok(Some(MigrateBatch(rs))))
  }

  /**
   * The chain's answer written back: a rejection is the stage's error;
   * StoreCode, Instantiate and ExternalInstantiate write the answer position
   * by position (or panic when it is too short); the others record nothing.
   */
  function WriteBack(stage: DeploymentStage, entries: seq<ContractInfo>, cs: seq<Descriptor>, reply: Reply): Result<Option<seq<ContractInfo>>, DeployError> {
    match reply
    case Rejected(e) => Err(Chain(e))
    case Committed(ids, addrs) =>
      match stage
      case StoreCode =>
        if |ids| < |cs| then Err(Panic(IndexPanic)) else Ok(Some(RecordCodeIds(entries, cs, ids[..|cs|])))
      case Instantiate =>
        if |addrs| < |cs| then Err(Panic(IndexPanic)) else Ok(Some(RecordAddresses(entries, cs, addrs[..|cs|])))
      case ExternalInstantiate =>
        var owned := Owned(cs);
        if |addrs| < |owned| then Err(Panic(IndexPanic)) else Ok(Some(RecordExternals(entries, owned, addrs[..|owned|])))
      case _ => Ok(None)
  }

  /** What one stage does: its result, the batch it sent (if any) and the contract list it saved (if any). */
  datatype StageRun = StageRun(result: Result<(), DeployError>, submitted: Option<Batch>, written: Option<seq<ContractInfo>>)

  function RunSpec(stage: DeploymentStage, entries: seq<ContractInfo>, fs: FileSystem, isAddress: string -> bool,
                   cs: seq<Descriptor>, n: nat, answer: (nat, Batch) -> Reply): StageRun {
    match Plan(stage, entries, fs, isAddress, cs)
    case Err(e) => StageRun(Err(e), None, None)
    case Ok(None) => StageRun(Ok(()), None, None)
    case Ok(Some(b)) =>
      match WriteBack(stage, entries, cs, answer(n, b))
      case Err(e) => StageRun(Err(e), Some(b), None)
      case Ok(w) => StageRun(Ok(()), Some(b), w)
  }

  /**
   * Failures found while building the list come before the chain: nothing
   * is sent and nothing saved. Otherwise exactly one batch is sent, even an
   * empty one, except when SetConfig ends early; only the three recording
   * stages save, and only on a full answer.
   */
  lemma RunSpecSubmitsOnce(stage: DeploymentStage, entries: seq<ContractInfo>, fs: FileSystem, isAddress: string -> bool,
                           cs: seq<Descriptor>, n: nat, answer: (nat, Batch) -> Reply)
    ensures var run := RunSpec(stage, entries, fs, isAddress, cs, n, answer);
      var plan := Plan(stage, entries, fs, isAddress, cs);
      && (plan.Err? ==> run == StageRun(Err(plan.error), None, None))
      && (plan == Ok(None) ==> stage.SetConfig? && run == StageRun(Ok(()), None, None))
      && (plan.Ok? && plan.value.Some? ==> run.submitted == plan.value)
      && (run.written.Some? ==> run.result.Ok? && (stage.StoreCode? || stage.Instantiate? || stage.ExternalInstantiate?))
  {
  }

  /** SetUp submits its batch even when no contract has a set-up message. */
  lemma SetUpSubmitsEmpty(entries: seq<ContractInfo>, fs: FileSystem, isAddress: string -> bool,
                          cs: seq<Descriptor>, n: nat, answer: (nat, Batch) -> Reply)
    requires forall i :: 0 <= i < |cs| ==> cs[i].setUpMsgs == Ok([])
    ensures RunSpec(SetUp, entries, fs, isAddress, cs, n, answer).submitted == Some(ExecBatch([]))
  {
    var f := SetUpStep(entries, isAddress);
    forall i | 0 <= i < |cs| ensures f(cs[i]) == Ok([]) {
      assert f(cs[i]) == TryFlatMap([], SetUpMsgStep(entries, isAddress, cs[i].display));
    }
    TryFlatMapAllEmpty(cs, f);
  }

  // ----- The engine -----

  /**
   * `msg_contract`: the preamble, then one stage. A failing preamble sends
   * nothing and saves nothing (what its prompts added is lost with the
   * unsaved registry); otherwise the stage runs as `RunSpec` describes over
   * the active environment's contracts, and a save writes the registry as
   * the preamble left it, with that environment's new contract list.
   */
  method MsgContract(config: Config, chain: Chain, fs: FileSystem, isAddress: string -> bool, cs: seq<Descriptor>,
                     stage: DeploymentStage, a: EnvAnswers, entered: Option<LegacyChain>) returns (r: Result<(), DeployError>)
    modifies config`envs, config`chains, config`saved, chain`sent
    ensures var p := Preamble(old(config.chains), old(config.envs), config.keys, a, entered);
      && config.chains == p.chains
      && (p.result.Err? ==>
           r == Err(p.result.error) && config.envs == p.envs && config.saved == old(config.saved) && chain.sent == old(chain.sent))
      && (p.result.Ok? ==>
           var run := RunSpec(stage, ActiveEntries(p.envs), fs, isAddress, cs, |old(chain.sent)|, chain.answer);
           && r == run.result
           && chain.sent == old(chain.sent) + (if run.submitted.Some? then [run.submitted.value] else [])
           && config.envs == (if run.written.Some? then WithActiveEntries(p.envs, run.written.value) else p.envs)
           && config.saved == (if run.written.Some? then Snapshot(config.shellCompletionDir, p.chains, config.envs, config.keys) else old(config.saved)))
  {
    var pre := Prepare(config, a, entered);
    if pre.Err? {
      return Err(pre.error);
    }
    r := RunStage(config, chain, fs, isAddress, cs, stage);
  }

  /** The preamble on the registry: `get_active_chain_info`, `get_active_key`, and the gRPC endpoint. */
  method Prepare(config: Config, a: EnvAnswers, entered: Option<LegacyChain>) returns (r: Result<(LegacyChain, UserKey), DeployError>)
    modifies config`envs, config`chains
    ensures Prepared(r, config.chains, config.envs) == Preamble(old(config.chains), old(config.envs), config.keys, a, entered)
  {
    var info := config.GetActiveChainInfo(a, entered);
    if info.Err? {
      return Err(info.error);
    }
    var key := ActiveKey(config.envs, config.keys);
    if key.Err? {
      return Err(key.error);
    }
    if info.value.grpcEndpoint.None? {
      return Err(MissingGRpc);
    }
    return Ok((info.value, key.value));
  }

  /**
   * One stage with an environment active: build the batch, send it unless
   * SetConfig ended early, write the answer back onto the active
   * environment's contracts and save.
   */
  method RunStage(config: Config, chain: Chain, fs: FileSystem, isAddress: string -> bool, cs: seq<Descriptor>, stage: DeploymentStage)
    returns (r: Result<(), DeployError>)
    requires ActiveIndex(config.envs).Some?
    modifies config`envs, config`saved, chain`sent
    ensures var run := RunSpec(stage, ActiveEntries(old(config.envs)), fs, isAddress, cs, |old(chain.sent)|, chain.answer);
      && r == run.result
      && chain.sent == old(chain.sent) + (if run.submitted.Some? then [run.submitted.value] else [])
      && config.envs == (if run.written.Some? then WithActiveEntries(old(config.envs), run.written.value) else old(config.envs))
      && config.saved == (if run.written.Some? then config.Value() else old(config.saved))
  {
    var env := config.GetActiveEnv();
    var entries := env.value.contracts;
    assert entries == ActiveEntries(config.envs);
    var batch := BuildBatch(stage, entries, fs, isAddress, cs);
    if batch.Err? {
      return Err(batch.error);
    }
    if batch.value.None? {
      return Ok(());
    }
    var reply := chain.Submit(batch.value.value);
    var w := WriteReply(stage, entries, cs, reply);
    if w.Err? {
      return Err(w.error);
    }
    if w.value.Some? {
      config.envs := WithActiveEntries(config.envs, w.value.value);
      config.Save();
    }
    return Ok(());
  }

  /** The request list of a stage, built by its loop. */
  method BuildBatch(stage: DeploymentStage, entries: seq<ContractInfo>, fs: FileSystem, isAddress: string -> bool, cs: seq<Descriptor>)
    returns (r: Result<Option<Batch>, DeployError>)
    ensures r == Plan(stage, entries, fs, isAddress, cs)
  {
    match stage {
      case StoreCode =>
        var reqs := StoreRequests(fs, cs);
        if reqs.Err? {
          return Err(reqs.error);
        }
        r := Ok(Some(StoreBatch(reqs.value)));
      case Instantiate =>
        var reqs := InstantiateRequests(entries, isAddress, cs);
        if reqs.Err? {
          return Err(reqs.error);
        }
        r := Ok(Some(InstantiateBatch(reqs.value)));
      case ExternalInstantiate =>
        var reqs := ExternalRequests(entries, isAddress, cs);
        if reqs.Err? {
          return Err(reqs.error);
        }
        r := Ok(Some(InstantiateBatch(reqs.value)));
      case SetConfig =>
        var reqs := SetConfigRequests(entries, isAddress, cs);
        if reqs.Err? {
          return Err(reqs.error);
        }
        if reqs.value.None? {
          return Ok(None);
        }
        r := Ok(Some(ExecBatch(reqs.value.value)));
      case SetUp =>
        var reqs := SetUpRequests(entries, isAddress, cs);
        if reqs.Err? {
          return Err(reqs.error);
        }
        r := Ok(Some(ExecBatch(reqs.value)));
      case Migrate =>
        var reqs := MigrateRequests(entries, isAddress, cs);
        if reqs.Err? {
          return Err(reqs.error);
        }
        r := Ok(Some(MigrateBatch(reqs.value)));
    }
  }

  /** The chain's answer, written back by the recording stages' loops. */
  method WriteReply(stage: DeploymentStage, entries: seq<ContractInfo>, cs: seq<Descriptor>, reply: Reply)
    returns (w: Result<Option<seq<ContractInfo>>, DeployError>)
    ensures w == WriteBack(stage, entries, cs, reply)
  {
    if reply.Rejected? {
      return Err(Chain(reply.error));
    }
    match stage {
      case StoreCode =>
        if |reply.codeIds| < |cs| {
          return Err(Panic(IndexPanic));
        }
        var out := WriteCodeIds(entries, cs, reply.codeIds[..|cs|]);
        w := Ok(Some(out));
      case Instantiate =>
        if |reply.addresses| < |cs| {
          return Err(Panic(IndexPanic));
        }
        var out := WriteAddresses(entries, cs, reply.addresses[..|cs|]);
        w := Ok(Some(out));
      case ExternalInstantiate =>
        if |reply.addresses| < |Owned(cs)| {
          return Err(Panic(IndexPanic));
        }
        var out := WriteExternals(entries, cs, reply.addresses);
        w := Ok(Some(out));
      case _ =>
        w := Ok(None);
    }
  }

  // ----- The request loops -----

  /** StoreCode's loop: each contract's artifact is read in turn. */
  method StoreRequests(fs: FileSystem, cs: seq<Descriptor>) returns (r: Result<seq<StoreRequest>, DeployError>)
    ensures r == StorePlan(fs, cs)
  {
    var reqs: seq<StoreRequest> := [];
    for i := 0 to |cs|
      invariant StorePlan(fs, cs[..i]) == Ok(reqs)
    {
      var path := ArtifactPath(cs[i]);
      TryFlatMapStep(cs, StoreStep(fs), i);
      if !fs.IsFile(path) {
        TryFlatMapErrPrefix(cs, StoreStep(fs), i + 1);
        return Err(Io(path));
      }
      reqs := reqs + [StoreRequest(fs.files[path])];
    }
    assert cs[..|cs|] == cs;
    return Ok(reqs);
  }

  /** Instantiate's loop: message, rewrite, registered entry, code id, admin. */
  method InstantiateRequests(entries: seq<ContractInfo>, isAddress: string -> bool, cs: seq<Descriptor>) returns (r: Result<seq<InstantiateRequest>, DeployError>)
    ensures r == InstantiatePlan(entries, isAddress, cs)
  {
    ghost var step := InstantiateStep(entries, isAddress);
    var reqs: seq<InstantiateRequest> := [];
    for i := 0 to |cs|
      invariant InstantiatePlan(entries, isAddress, cs[..i]) == Ok(reqs)
    {
      var c := cs[i];
      TryFlatMapStep(cs, step, i);
      if c.instantiateMsg.Err? {
        TryFlatMapErrPrefix(cs, step, i + 1);
        return Err(c.instantiateMsg.error);
      }
      var msg, replaced := ReplaceStrings(c.instantiateMsg.value, entries, false);
      if replaced.Err? {
        TryFlatMapErrPrefix(cs, step, i + 1);
        return Err(replaced.error);
      }
      var info := Lookup(entries, c.display);
      if info.None? {
        TryFlatMapErrPrefix(cs, step, i + 1);
        return Err(ContractNotFound(None));
      }
      if info.value.codeId.None? {
        TryFlatMapErrPrefix(cs, step, i + 1);
        return Err(CodeIdNotFound);
      }
      if !isAddress(c.admin) {
        TryFlatMapErrPrefix(cs, step, i + 1);
        return Err(Panic(UnwrapPanic));
      }
      reqs := reqs + [InstantiateRequest(info.value.codeId.value, msg, c.name, Some(c.admin))];
    }
    assert cs[..|cs|] == cs;
    return Ok(reqs);
  }

  /** ExternalInstantiate's loop: contract by contract, external by external. */
  method ExternalRequests(entries: seq<ContractInfo>, isAddress: string -> bool, cs: seq<Descriptor>) returns (r: Result<seq<InstantiateRequest>, DeployError>)
    ensures r == ExternalPlan(entries, isAddress, cs)
  {
    ghost var step := OwnerStep(entries, isAddress);
    var reqs: seq<InstantiateRequest> := [];
    for i := 0 to |cs|
      invariant ExternalPlan(entries, isAddress, cs[..i]) == Ok(reqs)
    {
      TryFlatMapStep(cs, step, i);
      var own := OwnerRequests(entries, isAddress, cs[i]);
      if own.Err? {
        TryFlatMapErrPrefix(cs, step, i + 1);
        return Err(own.error);
      }
      reqs := reqs + own.value;
    }
    assert cs[..|cs|] == cs;
    return Ok(reqs);
  }

  /** The inner loop of ExternalInstantiate: one contract's externals. */
  method OwnerRequests(entries: seq<ContractInfo>, isAddress: string -> bool, c: Descriptor) returns (r: Result<seq<InstantiateRequest>, DeployError>)
    ensures r == OwnerItem(entries, isAddress, c)
  {
    if c.externals.Err? {
      return Err(c.externals.error);
    }
    var es := c.externals.value;
    ghost var step := ExternalStep(entries, isAddress, c.admin);
    var reqs: seq<InstantiateRequest> := [];
    for j := 0 to |es|
      invariant TryFlatMap(es[..j], step) == Ok(reqs)
    {
      var e := es[j];
      TryFlatMapStep(es, step, j);
      var msg, replaced := ReplaceStrings(e.msg, entries, false);
      if replaced.Err? {
        TryFlatMapErrPrefix(es, step, j + 1);
        return Err(replaced.error);
      }
      if !isAddress(c.admin) {
        TryFlatMapErrPrefix(es, step, j + 1);
        return Err(Panic(UnwrapPanic));
      }
      reqs := reqs + [InstantiateRequest(e.codeId, msg, e.name, Some(c.admin))];
    }
    assert es[..|es|] == es;
    return Ok(reqs);
  }

  /** SetConfig's loop: front to back, leaving the whole stage at the first contract without a config message. */
  method SetConfigRequests(entries: seq<ContractInfo>, isAddress: string -> bool, cs: seq<Descriptor>) returns (r: Result<Option<seq<ExecRequest>>, DeployError>)
    ensures r == SetConfigPlan(entries, isAddress, cs)
  {
    var reqs: seq<ExecRequest> := [];
    assert cs[0..] == cs;
    PrependNothing(SetConfigPlan(entries, isAddress, cs));
    for i := 0 to |cs|
      invariant SetConfigPlan(entries, isAddress, cs) == Prepend(reqs, SetConfigPlan(entries, isAddress, cs[i..]))
    {
      var c := cs[i];
      assert cs[i..][0] == c && cs[i..][1..] == cs[i + 1..];
      if c.configMsg.Err? {
        return Err(c.configMsg.error);
      }
      if c.configMsg.value.None? {
        return Ok(None);
      }
      var msg, replaced := ReplaceStrings(c.configMsg.value.value, entries, false);
      if replaced.Err? {
        return Err(replaced.error);
      }
      var addr := Target(entries, isAddress, c.display);
      if addr.Err? {
        return Err(addr.error);
      }
      PrependPrepend(reqs, [ExecRequest(msg, addr.value)], SetConfigPlan(entries, isAddress, cs[i + 1..]));
      reqs := reqs + [ExecRequest(msg, addr.value)];
    }
    assert cs[|cs|..] == [];
    assert reqs + [] == reqs;
    return Ok(Some(reqs));
  }

  /** Prepending no requests changes nothing. */
  lemma PrependNothing(rest: Result<Option<seq<ExecRequest>>, DeployError>)
    ensures Prepend([], rest) == rest
  {
    if rest.Ok? && rest.value.Some? {
      assert [] + rest.value.value == rest.value.value;
    }
  }

  /** Prepending in two steps is prepending both at once. */
  lemma PrependPrepend(a: seq<ExecRequest>, b: seq<ExecRequest>, rest: Result<Option<seq<ExecRequest>>, DeployError>)
    ensures Prepend(a, Prepend(b, rest)) == Prepend(a + b, rest)
  {
    if rest.Ok? && rest.value.Some? {
      assert a + (b + rest.value.value) == (a + b) + rest.value.value;
    }
  }

  /** SetUp's loop, contract by contract. */
  method SetUpRequests(entries: seq<ContractInfo>, isAddress: string -> bool, cs: seq<Descriptor>) returns (r: Result<seq<ExecRequest>, DeployError>)
    ensures r == SetUpPlan(entries, isAddress, cs)
  {
    ghost var step := SetUpStep(entries, isAddress);
    var reqs: seq<ExecRequest> := [];
    for i := 0 to |cs|
      invariant SetUpPlan(entries, isAddress, cs[..i]) == Ok(reqs)
    {
      TryFlatMapStep(cs, step, i);
      var own := ContractSetUpRequests(entries, isAddress, cs[i]);
      if own.Err? {
        TryFlatMapErrPrefix(cs, step, i + 1);
        return Err(own.error);
      }
      reqs := reqs + own.value;
    }
    assert cs[..|cs|] == cs;
    return Ok(reqs);
  }

  /** The inner loop of SetUp: each message is rewritten and the contract's address looked up again. */
  method ContractSetUpRequests(entries: seq<ContractInfo>, isAddress: string -> bool, c: Descriptor) returns (r: Result<seq<ExecRequest>, DeployError>)
    ensures r == SetUpItem(entries, isAddress, c)
  {
    if c.setUpMsgs.Err? {
      return Err(c.setUpMsgs.error);
    }
    var ms := c.setUpMsgs.value;
    ghost var step := SetUpMsgStep(entries, isAddress, c.display);
    var reqs: seq<ExecRequest> := [];
    for j := 0 to |ms|
      invariant TryFlatMap(ms[..j], step) == Ok(reqs)
    {
      TryFlatMapStep(ms, step, j);
      var msg, replaced := ReplaceStrings(ms[j], entries, false);
      if replaced.Err? {
        TryFlatMapErrPrefix(ms, step, j + 1);
        return Err(replaced.error);
      }
      var addr := Target(entries, isAddress, c.display);
      if addr.Err? {
        TryFlatMapErrPrefix(ms, step, j + 1);
        return Err(addr.error);
      }
      reqs := reqs + [ExecRequest(msg, addr.value)];
    }
    assert ms[..|ms|] == ms;
    return Ok(reqs);
  }

  /** Migrate's loop: contracts without a migrate message are skipped. */
  method MigrateRequests(entries: seq<ContractInfo>, isAddress: string -> bool, cs: seq<Descriptor>) returns (r: Result<seq<MigrateRequest>, DeployError>)
    ensures r == MigratePlan(entries, isAddress, cs)
  {
    ghost var step := MigrateStep(entries, isAddress);
    var reqs: seq<MigrateRequest> := [];
    for i := 0 to |cs|
      invariant MigratePlan(entries, isAddress, cs[..i]) == Ok(reqs)
    {
      var c := cs[i];
      TryFlatMapStep(cs, step, i);
      if c.migrateMsg.Err? {
        TryFlatMapErrPrefix(cs, step, i + 1);
        return Err(c.migrateMsg.error);
      }
      if c.migrateMsg.value.Some? {
        var msg, replaced := ReplaceStrings(c.migrateMsg.value.value, entries, false);
        if replaced.Err? {
          TryFlatMapErrPrefix(cs, step, i + 1);
          return Err(replaced.error);
        }
        var info := Lookup(entries, c.display);
        if info.None? {
          TryFlatMapErrPrefix(cs, step, i + 1);
          return Err(ContractNotFound(None));
        }
        if info.value.addr.None? {
          TryFlatMapErrPrefix(cs, step, i + 1);
          return Err(AddrNotFound(Some(info.value.name)));
        }
        if info.value.codeId.None? {
          TryFlatMapErrPrefix(cs, step, i + 1);
          return Err(CodeIdNotFound);
        }
        if !isAddress(info.value.addr.value) {
          TryFlatMapErrPrefix(cs, step, i + 1);
          return Err(Panic(UnwrapPanic));
        }
        reqs := reqs + [MigrateRequest(msg, info.value.addr.value, info.value.codeId.value)];
      }
    }
    assert cs[..|cs|] == cs;
    return Ok(reqs);
  }

  // ----- The write-back loops -----

  /**
   * StoreCode's write-back loop: the entry `get_contract` finds by display
   * form gets the code id; without one, `add_contract_from` registers the
   * contract under its name with no address.
   */
  method WriteCodeIds(entries: seq<ContractInfo>, cs: seq<Descriptor>, ids: seq<u64>) returns (out: seq<ContractInfo>)
    requires |ids| == |cs|
    ensures out == RecordCodeIds(entries, cs, ids)
  {
    out := entries;
    for i := 0 to |cs|
      invariant out == RecordCodeIds(entries, cs[..i], ids[..i])
    {
      assert cs[..i + 1][..i] == cs[..i] && ids[..i + 1][..i] == ids[..i];
      var c := cs[i];
      match ContractIndex(out, c.display) {
        case Some(k) =>
          out := out[k := out[k].(codeId := Some(ids[i]))];
        case None =>
          out := Upsert(out, ContractInfo(c.name, None, Some(ids[i])));
      }
    }
    assert cs[..|cs|] == cs && ids[..|ids|] == ids;
  }

  /** Instantiate's write-back loop: the i-th address goes onto the i-th contract's entry. */
  method WriteAddresses(entries: seq<ContractInfo>, cs: seq<Descriptor>, addrs: seq<string>) returns (out: seq<ContractInfo>)
    requires |addrs| == |cs|
    ensures out == RecordAddresses(entries, cs, addrs)
  {
    out := entries;
    for i := 0 to |cs|
      invariant out == RecordAddresses(entries, cs[..i], addrs[..i])
    {
      assert cs[..i + 1][..i] == cs[..i] && addrs[..i + 1][..i] == addrs[..i];
      match ContractIndex(out, cs[i].display) {
        case Some(k) =>
          out := out[k := out[k].(addr := Some(addrs[i]))];
        case None =>
      }
    }
    assert cs[..|cs|] == cs && addrs[..|addrs|] == addrs;
  }

  /**
   * ExternalInstantiate's write-back loop: contract by contract and external
   * by external (the lists the plan used), a running index picks the
   * address, and `add_contract_from` registers the external under its name.
   */
  method WriteExternals(entries: seq<ContractInfo>, cs: seq<Descriptor>, addrs: seq<string>) returns (out: seq<ContractInfo>)
    requires |addrs| >= |Owned(cs)|
    ensures out == RecordExternals(entries, Owned(cs), addrs[..|Owned(cs)|])
  {
    ghost var owned := Owned(cs);
    out := entries;
    var index := 0;
    assert cs[..0] == [];
    assert owned[..0] == [] && addrs[..0] == [];
    for i := 0 to |cs|
      invariant index == |Owned(cs[..i])| <= |owned|
      invariant out == RecordExternals(entries, owned[..index], addrs[..index])
    {
      OwnedAt(cs, i);
      out, index := WriteOwnExternals(entries, cs[i], addrs, out, index, owned);
    }
    assert cs[..|cs|] == cs;
    assert owned[..index] == owned;
  }

  /** One more external written back. */
  lemma RecordExternalsStep(entries: seq<ContractInfo>, owned: seq<(Descriptor, ExternalInstantiate)>, addrs: seq<string>, n: nat)
    requires n < |owned| && n < |addrs|
    ensures RecordExternals(entries, owned[..n + 1], addrs[..n + 1]) ==
      Upsert(RecordExternals(entries, owned[..n], addrs[..n]), ExternalEntry(owned[n].1, addrs[n]))
  {
    assert owned[..n + 1][..n] == owned[..n] && addrs[..n + 1][..n] == addrs[..n];
  }

  /** Where the i-th contract's externals sit among all the owned externals. */
  lemma OwnedAt(cs: seq<Descriptor>, i: nat)
    requires i < |cs|
    ensures |Owned(cs[..i + 1])| == |Owned(cs[..i])| + |ExternalsOf(cs[i])| <= |Owned(cs)|
    ensures OwnsFrom(Owned(cs), |Owned(cs[..i])|, cs[i])
  {
    var items := ExternalsOf;
    PairsAt(cs, items, i);
    var es := items(cs[i]);
    assert es == ExternalsOf(cs[i]);
    var all, before := Pairs(cs, items), Pairs(cs[..i], items);
    assert all == Owned(cs) && before == Owned(cs[..i]) && Pairs(cs[..i + 1], items) == Owned(cs[..i + 1]);
    forall j | 0 <= j < |es| ensures all[|before| + j] == (cs[i], es[j]) {
    }
  }

  /** From position `index` on, `owned` lists the externals of `c`, paired with it. */
  predicate OwnsFrom(owned: seq<(Descriptor, ExternalInstantiate)>, index: nat, c: Descriptor) {
    && index + |ExternalsOf(c)| <= |owned|
    && forall j :: 0 <= j < |ExternalsOf(c)| ==> owned[index + j] == (c, ExternalsOf(c)[j])
  }

  /** The inner loop of ExternalInstantiate's write-back: one contract's externals, from the running index on. */
  method WriteOwnExternals(entries: seq<ContractInfo>, c: Descriptor, addrs: seq<string>, out0: seq<ContractInfo>, index: nat,
                           ghost owned: seq<(Descriptor, ExternalInstantiate)>)
    returns (out: seq<ContractInfo>, next: nat)
    requires OwnsFrom(owned, index, c) && |owned| <= |addrs|
    requires out0 == RecordExternals(entries, owned[..index], addrs[..index])
    ensures next == index + |ExternalsOf(c)|
    ensures out == RecordExternals(entries, owned[..next], addrs[..next])
  {
    var es := ExternalsOf(c);
    out, next := out0, index;
    for j := 0 to |es|
      invariant next == index + j
      invariant out == RecordExternals(entries, owned[..next], addrs[..next])
    {
      assert owned[index + j] == (c, es[j]);
      RecordExternalsStep(entries, owned, addrs, next);
      out := Upsert(out, ExternalEntry(es[j], addrs[next]));
      next := next + 1;
    }
  }
}
