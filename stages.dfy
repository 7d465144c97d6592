/**
 * What each stage of `execute_deployment` (wasm-deploy/src/deployment.rs)
 * does, stated as functions: the request list a stage builds from the
 * contract descriptors and the active environment's contract list
 * (`entries`), the first error that stops it before anything is sent, and
 * how the chain's answer is written back onto the contract list. `isAddress`
 * stands for `Address::from_str` accepting a text.
 */
module Stages {
  import opened Wrappers
  import opened Types
  import opened Seqs
  import opened Environments
  import opened Workspace
  import opened ContractDefaults
  import opened ChainClient

  datatype DeploymentStage =
    | StoreCode
    | Instantiate(interactive: bool)
    | ExternalInstantiate
    | Migrate(interactive: bool)
    | SetConfig
    | SetUp

  // ----- StoreCode -----

  /** `<artifacts_dir>/<bin_name>.wasm.gz`. */
  function ArtifactPath(ws: WorkspaceSettings, c: Contract): Path {
    Join(ws.artifactsDir, [c.binName + ".wasm.gz"])
  }

  function StoreItem(ws: WorkspaceSettings, fs: FileSystem, c: Contract): Result<seq<StoreRequest>, DeployError> {
    var p := ArtifactPath(ws, c);
    if fs.IsFile(p) then Ok([StoreRequest(fs.files[p])]) else Err(Io(p))
  }

  function StoreStep(ws: WorkspaceSettings, fs: FileSystem): Contract -> Result<seq<StoreRequest>, DeployError> {
    (c: Contract) => StoreItem(ws, fs, c)
  }

  /** The store requests, one per contract, or the first unreadable artifact. */
  function StorePlan(ws: WorkspaceSettings, fs: FileSystem, cs: seq<Contract>): Result<seq<StoreRequest>, DeployError> {
    TryFlatMap(cs, StoreStep(ws, fs))
  }

  /**
   * StoreCode reads every contract's artifact: it succeeds exactly when all
   * exist, then the i-th request carries the i-th contract's bytes; otherwise
   * it fails on the first missing one.
   */
  lemma StorePlanReadsEveryArtifact(ws: WorkspaceSettings, fs: FileSystem, cs: seq<Contract>)
    ensures StorePlan(ws, fs, cs).Ok? <==> forall i :: 0 <= i < |cs| ==> fs.IsFile(ArtifactPath(ws, cs[i]))
    ensures StorePlan(ws, fs, cs).Ok? ==>
      && |StorePlan(ws, fs, cs).value| == |cs|
      && forall i :: 0 <= i < |cs| ==> StorePlan(ws, fs, cs).value[i] == StoreRequest(fs.files[ArtifactPath(ws, cs[i])])
    ensures StorePlan(ws, fs, cs).Err? ==> exists i ::
      && 0 <= i < |cs| && StorePlan(ws, fs, cs).error == Io(ArtifactPath(ws, cs[i]))
      && !fs.IsFile(ArtifactPath(ws, cs[i]))
      && forall j :: 0 <= j < i ==> fs.IsFile(ArtifactPath(ws, cs[j]))
  {
    if forall i :: 0 <= i < |cs| ==> fs.IsFile(ArtifactPath(ws, cs[i])) {
      TryFlatMapSingles(cs, StoreStep(ws, fs));
    }
  }

  /** One code id written back: onto the entry found by display form, or a new entry under the contract's name. */
  function RecordCodeId(entries: seq<ContractInfo>, c: Contract, id: u64): (r: seq<ContractInfo>)
    ensures |r| >= |entries| && forall i :: 0 <= i < |entries| ==> r[i].name == entries[i].name
  {
    match ContractIndex(entries, c.display)
    case Some(k) => entries[k := entries[k].(codeId := Some(id))]
    case None => Upsert(entries, ContractInfo(c.name, None, Some(id)))
  }

  /** The StoreCode write-back: `ids[i]` goes to `cs[i]`, in contract order. */
  function RecordCodeIds(entries: seq<ContractInfo>, cs: seq<Contract>, ids: seq<u64>): (r: seq<ContractInfo>)
    requires |ids| == |cs|
    ensures |r| >= |entries| && forall i :: 0 <= i < |entries| ==> r[i].name == entries[i].name
    decreases |cs|
  {
    if |cs| == 0 then entries
    else
      var n := |cs| - 1;
      RecordCodeId(RecordCodeIds(entries, cs[..n], ids[..n]), cs[n], ids[n])
  }

  /** The address an entry of that name had before, if any. */
  function PriorAddr(entries: seq<ContractInfo>, name: string): Option<string> {
    match Lookup(entries, name)
    case Some(info) => info.addr
    case None => None
  }

  /**
   * One code id written back, for a contract whose display form is its name:
   * the entry gets the code id and keeps its address (a new entry has none);
   * no other name's lookup changes.
   */
  lemma RecordCodeIdLookup(entries: seq<ContractInfo>, c: Contract, id: u64, n: string)
    requires c.display == c.name
    ensures Lookup(RecordCodeId(entries, c, id), c.name) == Some(ContractInfo(c.name, PriorAddr(entries, c.name), Some(id)))
    ensures n != c.name ==> Lookup(RecordCodeId(entries, c, id), n) == Lookup(entries, n)
  {
    var r := RecordCodeId(entries, c, id);
    match ContractIndex(entries, c.display)
    case Some(k) =>
      SameNamesSameIndex(r, entries, c.name);
      SameNamesSameIndex(r, entries, n);
      assert r[k] == ContractInfo(c.name, entries[k].addr, Some(id));
    case None =>
      UpsertLookup(entries, ContractInfo(c.name, None, Some(id)), n);
  }

  /**
   * StoreCode's write-back, for contracts named by their display forms with
   * distinct names: afterwards the i-th contract's entry carries `ids[i]` and
   * the address it had before (none if it was missing), and every other
   * name resolves as before.
   */
  lemma RecordCodeIdsPositional(entries: seq<ContractInfo>, cs: seq<Contract>, ids: seq<u64>, n: string)
    requires |ids| == |cs|
    requires forall i :: 0 <= i < |cs| ==> cs[i].display == cs[i].name
    requires forall i, j :: 0 <= i < j < |cs| ==> cs[i].name != cs[j].name
    ensures forall i :: 0 <= i < |cs| ==>
      Lookup(RecordCodeIds(entries, cs, ids), cs[i].name) == Some(ContractInfo(cs[i].name, PriorAddr(entries, cs[i].name), Some(ids[i])))
    ensures (forall i :: 0 <= i < |cs| ==> cs[i].name != n) ==> Lookup(RecordCodeIds(entries, cs, ids), n) == Lookup(entries, n)
  {
    forall i | 0 <= i < |cs|
      ensures Lookup(RecordCodeIds(entries, cs, ids), cs[i].name) == Some(ContractInfo(cs[i].name, PriorAddr(entries, cs[i].name), Some(ids[i])))
    {
      RecordCodeIdsAt(entries, cs, ids, i);
    }
    if forall i :: 0 <= i < |cs| ==> cs[i].name != n {
      RecordCodeIdsElsewhere(entries, cs, ids, n);
    }
  }

  /** The write-back leaves a name that none of the contracts has alone. */
  lemma {:induction false} RecordCodeIdsElsewhere(entries: seq<ContractInfo>, cs: seq<Contract>, ids: seq<u64>, n: string)
    requires |ids| == |cs|
    requires forall i :: 0 <= i < |cs| ==> cs[i].display == cs[i].name && cs[i].name != n
    ensures Lookup(RecordCodeIds(entries, cs, ids), n) == Lookup(entries, n)
  {
    if |cs| > 0 {
      var m := |cs| - 1;
      assert forall i :: 0 <= i < m ==> cs[..m][i] == cs[i];
      RecordCodeIdsElsewhere(entries, cs[..m], ids[..m], n);
      RecordCodeIdLookup(RecordCodeIds(entries, cs[..m], ids[..m]), cs[m], ids[m], n);
    }
  }

  /** The write-back, seen from one contract: it ends with its own code id and its earlier address. */
  lemma {:induction false} RecordCodeIdsAt(entries: seq<ContractInfo>, cs: seq<Contract>, ids: seq<u64>, i: nat)
    requires |ids| == |cs| && i < |cs|
    requires forall k :: 0 <= k < |cs| ==> cs[k].display == cs[k].name
    requires forall k, j :: 0 <= k < j < |cs| ==> cs[k].name != cs[j].name
    ensures Lookup(RecordCodeIds(entries, cs, ids), cs[i].name) == Some(ContractInfo(cs[i].name, PriorAddr(entries, cs[i].name), Some(ids[i])))
  {
    var m := |cs| - 1;
    var init := cs[..m];
    var prev := RecordCodeIds(entries, init, ids[..m]);
    assert forall k :: 0 <= k < m ==> init[k] == cs[k];
    if i == m {
      RecordCodeIdsElsewhere(entries, init, ids[..m], cs[m].name);
      RecordCodeIdLookup(prev, cs[m], ids[m], cs[m].name);
    } else {
      RecordCodeIdsAt(entries, init, ids[..m], i);
      assert ids[..m][i] == ids[i];
      RecordCodeIdLookup(prev, cs[m], ids[m], cs[i].name);
    }
  }

  // ----- Instantiate -----

  /** A contract with the message it will be instantiated with, if any. */
  datatype Pending = Pending(contract: Contract, msg: Option<Json>)

  /** The first pass: the interactive message (whose failure aborts the stage) or the preprogrammed one. */
  function MsgItem(interactive: bool, c: Contract): Result<seq<Pending>, DeployError> {
    if !interactive then Ok([Pending(c, c.instantiateMsg)])
    else
      match c.instantiate
      case Ok(m) => Ok([Pending(c, Some(m))])
      case Err(e) => Err(e)
  }

  /** The message the first pass settles on, when it succeeds. */
  function ChosenMsg(interactive: bool, c: Contract): Option<Json>
    requires interactive ==> c.instantiate.Ok?
  {
    if interactive then Some(c.instantiate.value) else c.instantiateMsg
  }

  function MsgStep(interactive: bool): Contract -> Result<seq<Pending>, DeployError> {
    (c: Contract) => MsgItem(interactive, c)
  }

  function Pendings(interactive: bool, cs: seq<Contract>): Result<seq<Pending>, DeployError> {
    TryFlatMap(cs, MsgStep(interactive))
  }

  /**
   * Instantiate's first pass: interactively, every contract's `instantiate`
   * must succeed, and the first failure is the stage's error; otherwise
   * every contract keeps its preprogrammed message, possibly none.
   */
  lemma PendingsFollowContracts(interactive: bool, cs: seq<Contract>)
    ensures Pendings(interactive, cs).Ok? <==> (interactive ==> forall i :: 0 <= i < |cs| ==> cs[i].instantiate.Ok?)
    ensures Pendings(interactive, cs).Ok? ==>
      && |Pendings(interactive, cs).value| == |cs|
      && forall i :: 0 <= i < |cs| ==> Pendings(interactive, cs).value[i] == Pending(cs[i], ChosenMsg(interactive, cs[i]))
    ensures Pendings(interactive, cs).Err? ==> interactive && exists i ::
      && 0 <= i < |cs| && cs[i].instantiate == Err(Pendings(interactive, cs).error)
      && forall j :: 0 <= j < i ==> cs[j].instantiate.Ok?
  {
    if Pendings(interactive, cs).Ok? {
      TryFlatMapSingles(cs, MsgStep(interactive));
    }
  }

  predicate HasMessage(p: Pending) {
    p.msg.Some?
  }

  /** `has_msg`: the contracts that have a message, in order. */
  function WithMessage(ps: seq<Pending>): seq<Pending> {
    Retain(ps, HasMessage)
  }

  /** What a pending contract needs for its request: a registered entry with a code id, and a parseable admin. */
  predicate Instantiable(entries: seq<ContractInfo>, isAddress: string -> bool, p: Pending) {
    && Lookup(entries, p.contract.display).Some?
    && Lookup(entries, p.contract.display).value.codeId.Some?
    && isAddress(p.contract.admin)
  }

  /** A contract's part of the request list, or why it cannot be instantiated. */
  function InstantiateItem(entries: seq<ContractInfo>, isAddress: string -> bool, p: Pending): (r: Result<seq<InstantiateRequest>, DeployError>)
    ensures r.Ok? <==> (p.msg.Some? ==> Instantiable(entries, isAddress, p))
    ensures r.Err? ==> r.error == InstantiateError(entries, p.contract)
  {
    match p.msg
    case None => Ok([])
    case Some(m) =>
      match Lookup(entries, p.contract.display)
      case None => Err(ContractNotFound(Some(p.contract.display)))
      case Some(info) =>
        match info.codeId
        case None => Err(CodeIdNotFound)
        case Some(id) =>
          if isAddress(p.contract.admin) then Ok([InstantiateRequest(id, m, p.contract.name, Some(p.contract.admin))])
          else Err(InvalidAddress(p.contract.admin))
  }

  /** Why a contract with a message cannot be instantiated, checked in the order the stage checks. */
  function InstantiateError(entries: seq<ContractInfo>, c: Contract): DeployError {
    if Lookup(entries, c.display).None? then ContractNotFound(Some(c.display))
    else if Lookup(entries, c.display).value.codeId.None? then CodeIdNotFound
    else InvalidAddress(c.admin)
  }

  function InstantiateStep(entries: seq<ContractInfo>, isAddress: string -> bool): Pending -> Result<seq<InstantiateRequest>, DeployError> {
    (p: Pending) => InstantiateItem(entries, isAddress, p)
  }

  /** The second pass: one request per contract that has a message. */
  function InstantiatePlan(entries: seq<ContractInfo>, isAddress: string -> bool, ps: seq<Pending>): Result<seq<InstantiateRequest>, DeployError> {
    TryFlatMap(ps, InstantiateStep(entries, isAddress))
  }

  /**
   * Instantiate's requests: the stage goes ahead exactly when every contract
   * with a message is registered with a code id and has a parseable admin;
   * a contract without a message contributes nothing, and the k-th request
   * belongs to the k-th contract that has one, labelled by its name and
   * carrying its registered code id.
   */
  lemma InstantiatePlanSkipsSilent(entries: seq<ContractInfo>, isAddress: string -> bool, ps: seq<Pending>)
    ensures InstantiatePlan(entries, isAddress, ps).Ok? <==>
      forall i :: 0 <= i < |ps| && ps[i].msg.Some? ==> Instantiable(entries, isAddress, ps[i])
    ensures InstantiatePlan(entries, isAddress, ps).Ok? ==>
      && |InstantiatePlan(entries, isAddress, ps).value| == |WithMessage(ps)|
      && forall k :: 0 <= k < |WithMessage(ps)| ==>
        InstantiatePlan(entries, isAddress, ps).value[k] == RequestFor(entries, WithMessage(ps)[k])
  {
    if InstantiatePlan(entries, isAddress, ps).Ok? {
      TryFlatMapKeep(ps, InstantiateStep(entries, isAddress), HasMessage);
      var v := InstantiatePlan(entries, isAddress, ps).value;
      forall k | 0 <= k < |WithMessage(ps)|
        ensures v[k] == RequestFor(entries, WithMessage(ps)[k])
      {
        var h := WithMessage(ps)[k];
        assert InstantiateItem(entries, isAddress, h) == Ok([v[k]]);
      }
    }
  }

  /** The request of a contract that has a message and is instantiable. */
  function RequestFor(entries: seq<ContractInfo>, h: Pending): InstantiateRequest
    requires h.msg.Some? && Lookup(entries, h.contract.display).Some? && Lookup(entries, h.contract.display).value.codeId.Some?
  {
    InstantiateRequest(Lookup(entries, h.contract.display).value.codeId.value, h.msg.value, h.contract.name, Some(h.contract.admin))
  }

  /**
   * Instantiate fails before anything is sent on the first contract with a
   * message that is not instantiable: `ContractNotFound` if it is not
   * registered, else `CodeIdNotFound`, else the admin's parse error.
   */
  lemma InstantiatePlanFirstError(entries: seq<ContractInfo>, isAddress: string -> bool, ps: seq<Pending>)
    requires InstantiatePlan(entries, isAddress, ps).Err?
    ensures exists i ::
      && 0 <= i < |ps| && ps[i].msg.Some? && !Instantiable(entries, isAddress, ps[i])
      && (forall j :: 0 <= j < i && ps[j].msg.Some? ==> Instantiable(entries, isAddress, ps[j]))
      && InstantiatePlan(entries, isAddress, ps).error == InstantiateError(entries, ps[i].contract)
  {
    var e := InstantiatePlan(entries, isAddress, ps).error;
    var step := InstantiateStep(entries, isAddress);
    var i :| 0 <= i < |ps| && step(ps[i]) == Err(e) && forall j :: 0 <= j < i ==> step(ps[j]).Ok?;
    assert InstantiateItem(entries, isAddress, ps[i]) == Err(e);
    assert forall j :: 0 <= j < i ==> InstantiateItem(entries, isAddress, ps[j]).Ok?;
  }

  /** One address written back onto the entry found by display form. */
  function RecordAddress(entries: seq<ContractInfo>, c: Contract, addr: string): (r: seq<ContractInfo>)
    ensures |r| == |entries| && forall i :: 0 <= i < |entries| ==> r[i].name == entries[i].name
  {
    match ContractIndex(entries, c.display)
    case Some(k) => entries[k := entries[k].(addr := Some(addr))]
    case None => entries
  }

  /** The Instantiate write-back: `addrs[k]` goes to the k-th contract that had a message. */
  function RecordAddresses(entries: seq<ContractInfo>, hs: seq<Pending>, addrs: seq<string>): (r: seq<ContractInfo>)
    requires |addrs| == |hs|
    ensures |r| == |entries| && forall i :: 0 <= i < |entries| ==> r[i].name == entries[i].name
    decreases |hs|
  {
    if |hs| == 0 then entries
    else
      var n := |hs| - 1;
      RecordAddress(RecordAddresses(entries, hs[..n], addrs[..n]), hs[n].contract, addrs[n])
  }

  /** One address written back: a registered entry gets it and keeps its code id; other names are untouched. */
  lemma RecordAddressLookup(entries: seq<ContractInfo>, c: Contract, addr: string, n: string)
    requires Lookup(entries, c.display).Some?
    ensures Lookup(RecordAddress(entries, c, addr), c.display) == Some(Lookup(entries, c.display).value.(addr := Some(addr)))
    ensures n != c.display ==> Lookup(RecordAddress(entries, c, addr), n) == Lookup(entries, n)
  {
    var r := RecordAddress(entries, c, addr);
    SameNamesSameIndex(r, entries, c.display);
    SameNamesSameIndex(r, entries, n);
  }

  /**
   * Instantiate's write-back, for registered contracts with distinct display
   * forms: the k-th of them gets `addrs[k]` and keeps its code id; every
   * other name resolves as before.
   */
  lemma RecordAddressesPositional(entries: seq<ContractInfo>, hs: seq<Pending>, addrs: seq<string>, n: string)
    requires |addrs| == |hs|
    requires forall k :: 0 <= k < |hs| ==> Lookup(entries, hs[k].contract.display).Some?
    requires forall i, j :: 0 <= i < j < |hs| ==> hs[i].contract.display != hs[j].contract.display
    ensures forall k :: 0 <= k < |hs| ==>
      Lookup(RecordAddresses(entries, hs, addrs), hs[k].contract.display) ==
        Some(Lookup(entries, hs[k].contract.display).value.(addr := Some(addrs[k])))
    ensures (forall k :: 0 <= k < |hs| ==> hs[k].contract.display != n) ==>
      Lookup(RecordAddresses(entries, hs, addrs), n) == Lookup(entries, n)
  {
    forall k | 0 <= k < |hs|
      ensures Lookup(RecordAddresses(entries, hs, addrs), hs[k].contract.display) ==
        Some(Lookup(entries, hs[k].contract.display).value.(addr := Some(addrs[k])))
    {
      RecordAddressesAt(entries, hs, addrs, k);
    }
    if forall k :: 0 <= k < |hs| ==> hs[k].contract.display != n {
      RecordAddressesElsewhere(entries, hs, addrs, n);
    }
  }

  /** The write-back leaves a name none of the contracts displays as alone. */
  lemma {:induction false} RecordAddressesElsewhere(entries: seq<ContractInfo>, hs: seq<Pending>, addrs: seq<string>, n: string)
    requires |addrs| == |hs|
    requires forall k :: 0 <= k < |hs| ==> Lookup(entries, hs[k].contract.display).Some? && hs[k].contract.display != n
    ensures Lookup(RecordAddresses(entries, hs, addrs), n) == Lookup(entries, n)
  {
    if |hs| > 0 {
      var m := |hs| - 1;
      var prev := RecordAddresses(entries, hs[..m], addrs[..m]);
      assert forall k :: 0 <= k < m ==> hs[..m][k] == hs[k];
      RecordAddressesElsewhere(entries, hs[..m], addrs[..m], n);
      SameNamesSameIndex(prev, entries, hs[m].contract.display);
      RecordAddressLookup(prev, hs[m].contract, addrs[m], n);
    }
  }

  /** The write-back, seen from one contract: its entry ends with its own address and keeps its code id. */
  lemma {:induction false} RecordAddressesAt(entries: seq<ContractInfo>, hs: seq<Pending>, addrs: seq<string>, k: nat)
    requires |addrs| == |hs| && k < |hs|
    requires forall i :: 0 <= i < |hs| ==> Lookup(entries, hs[i].contract.display).Some?
    requires forall i, j :: 0 <= i < j < |hs| ==> hs[i].contract.display != hs[j].contract.display
    ensures Lookup(RecordAddresses(entries, hs, addrs), hs[k].contract.display) ==
      Some(Lookup(entries, hs[k].contract.display).value.(addr := Some(addrs[k])))
  {
    var m := |hs| - 1;
    var init := hs[..m];
    var prev := RecordAddresses(entries, init, addrs[..m]);
    assert forall i :: 0 <= i < m ==> init[i] == hs[i];
    SameNamesSameIndex(prev, entries, hs[m].contract.display);
    if k == m {
      RecordAddressesElsewhere(entries, init, addrs[..m], hs[m].contract.display);
      RecordAddressLookup(prev, hs[m].contract, addrs[m], hs[m].contract.display);
    } else {
      RecordAddressesAt(entries, init, addrs[..m], k);
      assert addrs[..m][k] == addrs[k];
      RecordAddressLookup(prev, hs[m].contract, addrs[m], hs[k].contract.display);
    }
  }

  // ----- ExternalInstantiate -----

  /** An external's request: its own code id, message and name as label, and its owner's admin. */
  function ExternalRequest(owner: Contract, e: External<Json>): InstantiateRequest {
    InstantiateRequest(e.codeId, e.msg, e.name, Some(owner.admin))
  }

  function ExternalItem(isAddress: string -> bool, c: Contract): (r: Result<seq<InstantiateRequest>, DeployError>)
    ensures r.Ok? <==> (|c.externals| > 0 ==> isAddress(c.admin))
    ensures r.Err? ==> r.error == InvalidAddress(c.admin)
  {
    if |c.externals| == 0 then Ok([])
    else if !isAddress(c.admin) then Err(InvalidAddress(c.admin))
    else Ok(seq(|c.externals|, i requires 0 <= i < |c.externals| => ExternalRequest(c, c.externals[i])))
  }

  function ExternalStep(isAddress: string -> bool): Contract -> Result<seq<InstantiateRequest>, DeployError> {
    (c: Contract) => ExternalItem(isAddress, c)
  }

  function ExternalPlan(isAddress: string -> bool, cs: seq<Contract>): Result<seq<InstantiateRequest>, DeployError> {
    TryFlatMap(cs, ExternalStep(isAddress))
  }

  function Externals(c: Contract): seq<External<Json>> {
    c.externals
  }

  /** Every external with its owner, contract by contract. */
  function Owned(cs: seq<Contract>): seq<(Contract, External<Json>)> {
    Pairs(cs, Externals)
  }

  /**
   * ExternalInstantiate's requests: it goes ahead exactly when every contract
   * that has externals has a parseable admin; the requests then follow the
   * contracts, and within a contract its externals, each with its own code
   * id, message and name and its owner's admin.
   */
  lemma ExternalPlanOrder(isAddress: string -> bool, cs: seq<Contract>)
    ensures ExternalPlan(isAddress, cs).Ok? <==> forall i :: 0 <= i < |cs| && |cs[i].externals| > 0 ==> isAddress(cs[i].admin)
    ensures ExternalPlan(isAddress, cs).Ok? ==>
      && |ExternalPlan(isAddress, cs).value| == |Owned(cs)|
      && forall j :: 0 <= j < |Owned(cs)| ==> ExternalPlan(isAddress, cs).value[j] == ExternalRequest(Owned(cs)[j].0, Owned(cs)[j].1)
    ensures ExternalPlan(isAddress, cs).Err? ==> exists i ::
      && 0 <= i < |cs| && |cs[i].externals| > 0 && !isAddress(cs[i].admin)
      && ExternalPlan(isAddress, cs).error == InvalidAddress(cs[i].admin)
  {
    var step := ExternalStep(isAddress);
    if ExternalPlan(isAddress, cs).Ok? {
      TryFlatMapPairs(cs, step, Externals, ExternalRequest);
    } else {
      var e := ExternalPlan(isAddress, cs).error;
      var i :| 0 <= i < |cs| && step(cs[i]) == Err(e) && forall j :: 0 <= j < i ==> step(cs[j]).Ok?;
      assert ExternalItem(isAddress, cs[i]) == Err(e);
    }
  }

  /** The ExternalInstantiate write-back: each external is upserted under its own name with its address and code id. */
  function RecordExternals(entries: seq<ContractInfo>, owned: seq<(Contract, External<Json>)>, addrs: seq<string>): seq<ContractInfo>
    requires |addrs| == |owned|
    decreases |owned|
  {
    if |owned| == 0 then entries
    else
      var n := |owned| - 1;
      Upsert(RecordExternals(entries, owned[..n], addrs[..n]), ExternalEntry(owned[n].1, addrs[n]))
  }

  function ExternalEntry(e: External<Json>, addr: string): ContractInfo {
    ContractInfo(e.name, Some(addr), Some(e.codeId))
  }

  /**
   * For externals with distinct names, the j-th is registered under its name
   * with the j-th address and its code id; every other name resolves as before.
   */
  lemma RecordExternalsLookup(entries: seq<ContractInfo>, owned: seq<(Contract, External<Json>)>, addrs: seq<string>, n: string)
    requires |addrs| == |owned|
    requires forall i, j :: 0 <= i < j < |owned| ==> owned[i].1.name != owned[j].1.name
    ensures forall j :: 0 <= j < |owned| ==>
      Lookup(RecordExternals(entries, owned, addrs), owned[j].1.name) == Some(ExternalEntry(owned[j].1, addrs[j]))
    ensures (forall j :: 0 <= j < |owned| ==> owned[j].1.name != n) ==>
      Lookup(RecordExternals(entries, owned, addrs), n) == Lookup(entries, n)
  {
    forall j | 0 <= j < |owned|
      ensures Lookup(RecordExternals(entries, owned, addrs), owned[j].1.name) == Some(ExternalEntry(owned[j].1, addrs[j]))
    {
      RecordExternalsAt(entries, owned, addrs, j);
    }
    if forall j :: 0 <= j < |owned| ==> owned[j].1.name != n {
      RecordExternalsElsewhere(entries, owned, addrs, n);
    }
  }

  /** The write-back leaves a name no external has alone. */
  lemma {:induction false} RecordExternalsElsewhere(entries: seq<ContractInfo>, owned: seq<(Contract, External<Json>)>, addrs: seq<string>, n: string)
    requires |addrs| == |owned|
    requires forall j :: 0 <= j < |owned| ==> owned[j].1.name != n
    ensures Lookup(RecordExternals(entries, owned, addrs), n) == Lookup(entries, n)
  {
    if |owned| > 0 {
      var m := |owned| - 1;
      assert forall j :: 0 <= j < m ==> owned[..m][j] == owned[j];
      RecordExternalsElsewhere(entries, owned[..m], addrs[..m], n);
      UpsertLookup(RecordExternals(entries, owned[..m], addrs[..m]), ExternalEntry(owned[m].1, addrs[m]), n);
    }
  }

  /** The write-back, seen from one external: it ends registered with its own address and code id. */
  lemma {:induction false} RecordExternalsAt(entries: seq<ContractInfo>, owned: seq<(Contract, External<Json>)>, addrs: seq<string>, j: nat)
    requires |addrs| == |owned| && j < |owned|
    requires forall i, k :: 0 <= i < k < |owned| ==> owned[i].1.name != owned[k].1.name
    ensures Lookup(RecordExternals(entries, owned, addrs), owned[j].1.name) == Some(ExternalEntry(owned[j].1, addrs[j]))
  {
    var m := |owned| - 1;
    var prev := RecordExternals(entries, owned[..m], addrs[..m]);
    var last := ExternalEntry(owned[m].1, addrs[m]);
    assert forall i :: 0 <= i < m ==> owned[..m][i] == owned[i];
    if j == m {
      UpsertLookup(prev, last, last.name);
    } else {
      RecordExternalsAt(entries, owned[..m], addrs[..m], j);
      assert addrs[..m][j] == addrs[j];
      UpsertLookup(prev, last, owned[j].1.name);
    }
  }

  // ----- SetConfig and SetUp -----

  /** `get_contract_addr` on the active environment's contract list. */
  function AddrOf(entries: seq<ContractInfo>, name: string): (r: Result<string, DeployError>)
    ensures Lookup(entries, name).None? ==> r == Err(ContractNotFound(Some(name)))
    ensures Lookup(entries, name).Some? ==> (r.Ok? <==> Lookup(entries, name).value.addr.Some?)
    ensures r.Ok? ==> Lookup(entries, name).value.addr == Some(r.value)
    ensures Lookup(entries, name).Some? && r.Err? ==> r.error == AddrNotFound(Some(name))
  {
    match Lookup(entries, name)
    case None => Err(ContractNotFound(Some(name)))
    case Some(info) =>
      match info.addr
      case None => Err(AddrNotFound(Some(name)))
      case Some(a) => Ok(a)
  }

  /** The registered address of a contract, parsed. */
  function Target(entries: seq<ContractInfo>, isAddress: string -> bool, c: Contract): (r: Result<string, DeployError>)
    ensures r.Ok? <==> AddrOf(entries, c.display).Ok? && isAddress(AddrOf(entries, c.display).value)
    ensures r.Ok? ==> r.value == AddrOf(entries, c.display).value
  {
    match AddrOf(entries, c.display)
    case Err(e) => Err(e)
    case Ok(a) => if isAddress(a) then Ok(a) else Err(InvalidAddress(a))
  }

  function SetConfigItem(entries: seq<ContractInfo>, isAddress: string -> bool, c: Contract): Result<seq<ExecRequest>, DeployError> {
    match c.setConfigMsg
    case None => Ok([])
    case Some(m) =>
      match Target(entries, isAddress, c)
      case Err(e) => Err(e)
      case Ok(a) => Ok([ExecRequest(m, a)])
  }

  function SetConfigStep(entries: seq<ContractInfo>, isAddress: string -> bool): Contract -> Result<seq<ExecRequest>, DeployError> {
    (c: Contract) => SetConfigItem(entries, isAddress, c)
  }

  function SetConfigPlan(entries: seq<ContractInfo>, isAddress: string -> bool, cs: seq<Contract>): Result<seq<ExecRequest>, DeployError> {
    TryFlatMap(cs, SetConfigStep(entries, isAddress))
  }

  predicate HasConfigMsg(c: Contract) {
    c.setConfigMsg.Some?
  }

  /**
   * SetConfig's requests: it goes ahead exactly when every contract with a
   * config message has a parseable registered address; the k-th request
   * executes the k-th such contract's message at that address.
   */
  lemma SetConfigPlanShape(entries: seq<ContractInfo>, isAddress: string -> bool, cs: seq<Contract>)
    ensures SetConfigPlan(entries, isAddress, cs).Ok? <==>
      forall i :: 0 <= i < |cs| && cs[i].setConfigMsg.Some? ==> Target(entries, isAddress, cs[i]).Ok?
    ensures SetConfigPlan(entries, isAddress, cs).Ok? ==>
      && |SetConfigPlan(entries, isAddress, cs).value| == |Retain(cs, HasConfigMsg)|
      && forall k :: 0 <= k < |Retain(cs, HasConfigMsg)| ==>
        var c := Retain(cs, HasConfigMsg)[k];
        && c.setConfigMsg.Some? && AddrOf(entries, c.display).Ok?
        && SetConfigPlan(entries, isAddress, cs).value[k] == ExecRequest(c.setConfigMsg.value, AddrOf(entries, c.display).value)
  {
    var step := SetConfigStep(entries, isAddress);
    assert forall i :: 0 <= i < |cs| ==> (step(cs[i]).Ok? <==> (cs[i].setConfigMsg.Some? ==> Target(entries, isAddress, cs[i]).Ok?));
    if SetConfigPlan(entries, isAddress, cs).Ok? {
      TryFlatMapKeep(cs, step, HasConfigMsg);
      var v := SetConfigPlan(entries, isAddress, cs).value;
      forall k | 0 <= k < |Retain(cs, HasConfigMsg)|
        ensures var c := Retain(cs, HasConfigMsg)[k];
          && c.setConfigMsg.Some? && AddrOf(entries, c.display).Ok?
          && v[k] == ExecRequest(c.setConfigMsg.value, AddrOf(entries, c.display).value)
      {
        var c := Retain(cs, HasConfigMsg)[k];
        assert SetConfigItem(entries, isAddress, c) == Ok([v[k]]);
      }
    }
  }

  function SetUpItem(entries: seq<ContractInfo>, isAddress: string -> bool, c: Contract): Result<seq<ExecRequest>, DeployError> {
    if |c.setUpMsgs| == 0 then Ok([])
    else
      match Target(entries, isAddress, c)
      case Err(e) => Err(e)
      case Ok(a) => Ok(seq(|c.setUpMsgs|, i requires 0 <= i < |c.setUpMsgs| => ExecRequest(c.setUpMsgs[i], a)))
  }

  function SetUpStep(entries: seq<ContractInfo>, isAddress: string -> bool): Contract -> Result<seq<ExecRequest>, DeployError> {
    (c: Contract) => SetUpItem(entries, isAddress, c)
  }

  function SetUpPlan(entries: seq<ContractInfo>, isAddress: string -> bool, cs: seq<Contract>): Result<seq<ExecRequest>, DeployError> {
    TryFlatMap(cs, SetUpStep(entries, isAddress))
  }

  function SetUpMsgs(c: Contract): seq<Json> {
    c.setUpMsgs
  }

  /** The request for one set-up message of a contract whose address is registered. */
  function SetUpRequest(entries: seq<ContractInfo>): (Contract, Json) -> ExecRequest {
    (c: Contract, m: Json) => ExecRequest(m, match AddrOf(entries, c.display) case Ok(a) => a case Err(_) => "")
  }

  /**
   * SetUp's requests: it goes ahead exactly when every contract with set-up
   * messages has a parseable registered address; the requests follow the
   * contracts and, within one, its messages, each executed at its
   * contract's address.
   */
  lemma SetUpPlanOrder(entries: seq<ContractInfo>, isAddress: string -> bool, cs: seq<Contract>)
    ensures SetUpPlan(entries, isAddress, cs).Ok? <==>
      forall i :: 0 <= i < |cs| && |cs[i].setUpMsgs| > 0 ==> Target(entries, isAddress, cs[i]).Ok?
    ensures SetUpPlan(entries, isAddress, cs).Ok? ==>
      var ps := Pairs(cs, SetUpMsgs);
      && |SetUpPlan(entries, isAddress, cs).value| == |ps|
      && forall j :: 0 <= j < |ps| ==>
        && AddrOf(entries, ps[j].0.display).Ok?
        && SetUpPlan(entries, isAddress, cs).value[j] == ExecRequest(ps[j].1, AddrOf(entries, ps[j].0.display).value)
  {
    var step := SetUpStep(entries, isAddress);
    assert forall i :: 0 <= i < |cs| ==> (step(cs[i]).Ok? <==> (|cs[i].setUpMsgs| > 0 ==> Target(entries, isAddress, cs[i]).Ok?));
    if SetUpPlan(entries, isAddress, cs).Ok? {
      TryFlatMapPairs(cs, step, SetUpMsgs, SetUpRequest(entries));
      var ps := Pairs(cs, SetUpMsgs);
      forall j | 0 <= j < |ps|
        ensures AddrOf(entries, ps[j].0.display).Ok?
      {
        PairsMember(cs, SetUpMsgs, j);
        var i :| 0 <= i < |cs| && cs[i] == ps[j].0;
        assert |cs[i].setUpMsgs| > 0;
      }
    }
  }

  // ----- Migrate -----

  /** The migration message: the interactive one (whose failure aborts the stage) or the preprogrammed one. */
  function MigrateMsg(interactive: bool, c: Contract): Result<Option<Json>, DeployError> {
    if !interactive then Ok(c.migrateMsg)
    else
      match c.migrate
      case Ok(m) => Ok(Some(m))
      case Err(e) => Err(e)
  }

  function MigrateItem(entries: seq<ContractInfo>, isAddress: string -> bool, interactive: bool, c: Contract): Result<seq<MigrateRequest>, DeployError> {
    match MigrateMsg(interactive, c)
    case Err(e) => Err(e)
    case Ok(None) => Ok([])
    case Ok(Some(m)) =>
      match Lookup(entries, c.display)
      case None => Err(ContractNotFound(Some(c.display)))
      case Some(info) =>
        match info.addr
        case None => Err(AddrNotFound(Some(info.name)))
        case Some(a) =>
          match info.codeId
          case None => Err(CodeIdNotFound)
          case Some(id) => if isAddress(a) then Ok([MigrateRequest(m, a, id)]) else Err(InvalidAddress(a))
  }

  function MigrateStep(entries: seq<ContractInfo>, isAddress: string -> bool, interactive: bool): Contract -> Result<seq<MigrateRequest>, DeployError> {
    (c: Contract) => MigrateItem(entries, isAddress, interactive, c)
  }

  function MigratePlan(entries: seq<ContractInfo>, isAddress: string -> bool, interactive: bool, cs: seq<Contract>): Result<seq<MigrateRequest>, DeployError> {
    TryFlatMap(cs, MigrateStep(entries, isAddress, interactive))
  }

  /**
   * Migrate checks a contract with a message in this order: registered, then
   * an address, then a code id, then the address's parse; a contract without
   * a message is skipped whatever its registration.
   */
  lemma MigrateChecksAddrFirst(entries: seq<ContractInfo>, isAddress: string -> bool, interactive: bool, c: Contract)
    requires MigrateMsg(interactive, c).Ok?
    ensures MigrateMsg(interactive, c).value.None? ==> MigrateItem(entries, isAddress, interactive, c) == Ok([])
    ensures MigrateMsg(interactive, c).value.Some? && Lookup(entries, c.display).None? ==>
      MigrateItem(entries, isAddress, interactive, c) == Err(ContractNotFound(Some(c.display)))
    ensures MigrateMsg(interactive, c).value.Some? && Lookup(entries, c.display).Some? && Lookup(entries, c.display).value.addr.None? ==>
      MigrateItem(entries, isAddress, interactive, c) == Err(AddrNotFound(Some(c.display)))
    ensures (MigrateMsg(interactive, c).value.Some? && Lookup(entries, c.display).Some? && Lookup(entries, c.display).value.addr.Some?
      && Lookup(entries, c.display).value.codeId.None?) ==> MigrateItem(entries, isAddress, interactive, c) == Err(CodeIdNotFound)
  {
  }

  predicate Migrates(interactive: bool, c: Contract) {
    MigrateMsg(interactive, c).Ok? && MigrateMsg(interactive, c).value.Some?
  }

  /**
   * Migrate's requests: the k-th request belongs to the k-th contract with a
   * migration message, is addressed to its registered address, and carries
   * its registered code id as the new code id.
   */
  lemma MigratePlanUsesRegisteredCodeId(entries: seq<ContractInfo>, isAddress: string -> bool, interactive: bool, cs: seq<Contract>)
    requires MigratePlan(entries, isAddress, interactive, cs).Ok?
    ensures var v := MigratePlan(entries, isAddress, interactive, cs).value;
      var ms := Retain(cs, c => Migrates(interactive, c));
      && |v| == |ms|
      && forall k :: 0 <= k < |ms| ==>
        && Lookup(entries, ms[k].display).Some?
        && var info := Lookup(entries, ms[k].display).value;
        && info.addr.Some? && info.codeId.Some?
        && v[k] == MigrateRequest(MigrateMsg(interactive, ms[k]).value.value, info.addr.value, info.codeId.value)
  {
    var step := MigrateStep(entries, isAddress, interactive);
    var keep := c => Migrates(interactive, c);
    forall i | 0 <= i < |cs| ensures step(cs[i]).Ok? && |step(cs[i]).value| == (if keep(cs[i]) then 1 else 0) {
      MigrateItemShape(entries, isAddress, interactive, cs[i]);
    }
    TryFlatMapKeep(cs, step, keep);
    var v := MigratePlan(entries, isAddress, interactive, cs).value;
    var ms := Retain(cs, keep);
    forall k | 0 <= k < |ms|
      ensures && Lookup(entries, ms[k].display).Some?
        && var info := Lookup(entries, ms[k].display).value;
        && info.addr.Some? && info.codeId.Some?
        && v[k] == MigrateRequest(MigrateMsg(interactive, ms[k]).value.value, info.addr.value, info.codeId.value)
    {
      assert step(ms[k]) == Ok([v[k]]);
      MigrateItemShape(entries, isAddress, interactive, ms[k]);
    }
  }

  /** A contract that passes Migrate's checks yields one request if it has a message, else none. */
  lemma MigrateItemShape(entries: seq<ContractInfo>, isAddress: string -> bool, interactive: bool, c: Contract)
    requires MigrateItem(entries, isAddress, interactive, c).Ok?
    ensures |MigrateItem(entries, isAddress, interactive, c).value| == if Migrates(interactive, c) then 1 else 0
    ensures Migrates(interactive, c) ==>
      && Lookup(entries, c.display).Some?
      && var info := Lookup(entries, c.display).value;
      && info.addr.Some? && info.codeId.Some?
      && MigrateItem(entries, isAddress, interactive, c).value[0] == MigrateRequest(MigrateMsg(interactive, c).value.value, info.addr.value, info.codeId.value)
  {
  }

  // ----- Whole stages -----

  function BatchSize(b: Batch): nat {
    match b
    case StoreBatch(x) => |x|
    case InstantiateBatch(x) => |x|
    case ExecBatch(x) => |x|
    case MigrateBatch(x) => |x|
  }

  /** The batch a stage would send, or the error that stops it first. */
  function Plan(stage: DeploymentStage, entries: seq<ContractInfo>, ws: WorkspaceSettings, fs: FileSystem,
                isAddress: string -> bool, cs: seq<Contract>): Result<Batch, DeployError>
  {
    match stage
    case StoreCode =>
      (match StorePlan(ws, fs, cs) case Ok(v) => Ok(StoreBatch(v)) case Err(e) => Err(e))
    case Instantiate(interactive) =>
      (match Pendings(interactive, cs)
       case Err(e) => Err(e)
       case Ok(ps) => match InstantiatePlan(entries, isAddress, ps) case Ok(v) => Ok(InstantiateBatch(v)) case Err(e) => Err(e))
    case ExternalInstantiate =>
      (match ExternalPlan(isAddress, cs) case Ok(v) => Ok(InstantiateBatch(v)) case Err(e) => Err(e))
    case SetConfig =>
      (match SetConfigPlan(entries, isAddress, cs) case Ok(v) => Ok(ExecBatch(v)) case Err(e) => Err(e))
    case SetUp =>
      (match SetUpPlan(entries, isAddress, cs) case Ok(v) => Ok(ExecBatch(v)) case Err(e) => Err(e))
    case Migrate(interactive) =>
      (match MigratePlan(entries, isAddress, interactive, cs) case Ok(v) => Ok(MigrateBatch(v)) case Err(e) => Err(e))
  }

  /**
   * Whether a planned batch goes to the chain: never in a dry run; StoreCode,
   * Instantiate and Migrate send even an empty batch, the other stages only a
   * non-empty one.
   */
  predicate Submits(stage: DeploymentStage, b: Batch, dryRun: bool) {
    !dryRun && (stage.StoreCode? || stage.Instantiate? || stage.Migrate? || BatchSize(b) > 0)
  }

  /** The stages that write the chain's answer back into the registry. */
  predicate Records(stage: DeploymentStage) {
    stage.StoreCode? || stage.Instantiate? || stage.ExternalInstantiate?
  }

  /**
   * With no contracts every stage plans an empty batch; outside a dry run
   * StoreCode, Instantiate and Migrate still send it, while
   * ExternalInstantiate, SetConfig and SetUp send nothing.
   */
  lemma EmptyBatchRule(stage: DeploymentStage, entries: seq<ContractInfo>, ws: WorkspaceSettings, fs: FileSystem, isAddress: string -> bool)
    ensures Plan(stage, entries, ws, fs, isAddress, []).Ok?
    ensures BatchSize(Plan(stage, entries, ws, fs, isAddress, []).value) == 0
    ensures Submits(stage, Plan(stage, entries, ws, fs, isAddress, []).value, false) <==>
      (stage.StoreCode? || stage.Instantiate? || stage.Migrate?)
  {
  }

  /** The message of the panic an out-of-range index into the chain's answer raises. */
  const IndexPanic := "index out of bounds"

  /**
   * The active contract list once the chain has answered a submitted batch:
   * a rejection is the stage's error; the recording stages write the answer
   * back position by position, and an answer shorter than the positions it
   * must cover panics; the other stages leave the list as it was.
   */
  function WriteBack(stage: DeploymentStage, entries: seq<ContractInfo>, cs: seq<Contract>, reply: Reply): Result<seq<ContractInfo>, DeployError> {
    match reply
    case Rejected(e) => Err(Chain(e))
    case Committed(ids, addrs) =>
      match stage
      case StoreCode =>
        if |ids| < |cs| then Err(Panic(IndexPanic)) else Ok(RecordCodeIds(entries, cs, ids[..|cs|]))
      case Instantiate(interactive) =>
        (match Pendings(interactive, cs)
         case Err(_) => Ok(entries)
         case Ok(ps) =>
           var hs := WithMessage(ps);
           if |addrs| < |hs| then Err(Panic(IndexPanic)) else Ok(RecordAddresses(entries, hs, addrs[..|hs|])))
      case ExternalInstantiate =>
        var owned := Owned(cs);
        if |addrs| < |owned| then Err(Panic(IndexPanic)) else Ok(RecordExternals(entries, owned, addrs[..|owned|]))
      case _ => Ok(entries)
  }

  /** Only the recording stages change the contract list, and only after a committed answer. */
  lemma WriteBackOnlyWhenRecording(stage: DeploymentStage, entries: seq<ContractInfo>, cs: seq<Contract>, reply: Reply)
    ensures reply.Rejected? ==> WriteBack(stage, entries, cs, reply) == Err(Chain(reply.error))
    ensures !Records(stage) && reply.Committed? ==> WriteBack(stage, entries, cs, reply) == Ok(entries)
  {
  }

  /**
   * What one stage does, as seen from outside: its result, the batch it
   * submits (if any), and the active contract list it writes back and saves
   * (if any).
   */
  datatype StageRun = StageRun(result: Result<(), DeployError>, submitted: Option<Batch>, written: Option<seq<ContractInfo>>)

  /**
   * One run of a stage against the active contract list `entries`, where the
   * chain answers the n-th batch it receives with `answer(n, batch)`.
   */
  function RunSpec(stage: DeploymentStage, entries: seq<ContractInfo>, ws: WorkspaceSettings, fs: FileSystem,
                   isAddress: string -> bool, cs: seq<Contract>, dryRun: bool, n: nat, answer: (nat, Batch) -> Reply): (r: StageRun)
    ensures r.submitted.Some? <==>
      Plan(stage, entries, ws, fs, isAddress, cs).Ok? && Submits(stage, Plan(stage, entries, ws, fs, isAddress, cs).value, dryRun)
    ensures r.submitted.Some? ==> r.submitted.value == Plan(stage, entries, ws, fs, isAddress, cs).value
    ensures Plan(stage, entries, ws, fs, isAddress, cs).Err? ==> r.result == Err(Plan(stage, entries, ws, fs, isAddress, cs).error)
    ensures dryRun ==> r.submitted.None? && r.written.None? && r.result.Ok? == Plan(stage, entries, ws, fs, isAddress, cs).Ok?
    ensures r.written.Some? ==> Records(stage) && r.submitted.Some? && r.result.Ok?
    ensures r.result.Err? ==> r.written.None?
    ensures r.submitted.Some? ==>
      var w := WriteBack(stage, entries, cs, answer(n, r.submitted.value));
      (r.result.Ok? <==> w.Ok?) && (w.Err? ==> r.result.error == w.error) && (w.Ok? && Records(stage) ==> r.written == Some(w.value))
  {
    match Plan(stage, entries, ws, fs, isAddress, cs)
    case Err(e) => StageRun(Err(e), None, None)
    case Ok(b) =>
      if !Submits(stage, b, dryRun) then StageRun(Ok(()), None, None)
      else
        match WriteBack(stage, entries, cs, answer(n, b))
        case Err(e) => StageRun(Err(e), Some(b), None)
        case Ok(es) => StageRun(Ok(()), Some(b), if Records(stage) then Some(es) else None)
  }
}
