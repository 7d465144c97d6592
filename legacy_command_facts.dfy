/**
 * What the per-contract commands of src/contract.rs promise, proved about
 * their specifications in LegacyCommands: which transactions they send, in
 * which order and to which address, and what they leave in the registry.
 */
module LegacyCommandFacts {
  import opened Wrappers
  import opened Types
  import opened Environments
  import opened ChainClient
  import opened LegacyRegistry
  import opened LegacyContract
  import opened LegacyCommands

  /** The entry a lookup by name finds in the active environment, if one is active. */
  function ActiveLookup(envs: seq<Env>, name: string): Option<ContractInfo> {
    match ActiveIndex(envs)
    case Some(i) => Lookup(envs[i].contracts, name)
    case None => None
  }

  /** Editing contracts and nothing else keeps the active environment where it was. */
  lemma SameFlagsSameActive(a: seq<Env>, b: seq<Env>)
    requires |a| == |b| && forall i :: 0 <= i < |a| ==> a[i].isActive == b[i].isActive
    ensures ActiveIndex(a) == ActiveIndex(b)
  {
    match ActiveIndex(a)
    case None =>
    case Some(i) =>
      assert b[i].isActive;
      match ActiveIndex(b)
      case None =>
      case Some(k) =>
        assert a[k].isActive;
  }

  /** Replacing the entry a lookup by name lands on by one of the same name makes the lookup find the new one. */
  lemma SameNameSameLookup(cs: seq<ContractInfo>, j: nat, c: ContractInfo)
    requires j < |cs| && ContractIndex(cs, c.name) == Some(j)
    ensures Lookup(cs[j := c], c.name) == Some(c)
  {
    SameNamesSameIndex(cs, cs[j := c], c.name);
  }

  // ----- execute_store -----

  /**
   * The registry side of `execute_store` with an environment active: the
   * entry found by display form keeps its address and takes the new code id;
   * without one, an entry with the contract's name, no address and the code
   * id is upserted. Only the active environment changes.
   */
  lemma StoreRecordsCodeId(envs: seq<Env>, chains: seq<LegacyChain>, keys: seq<UserKey>, a: EnvAnswers, c: Descriptor, id: u64)
    requires ActiveIndex(envs).Some?
    ensures var r := StoreRecorded(envs, chains, keys, a, c, id);
      var i := ActiveIndex(envs).value;
      && |r| == |envs| && ActiveIndex(r) == Some(i)
      && (forall k :: 0 <= k < |envs| && k != i ==> r[k] == envs[k])
      && (Lookup(envs[i].contracts, c.display).Some? ==>
            Lookup(r[i].contracts, c.display) == Some(Lookup(envs[i].contracts, c.display).value.(codeId := Some(id))))
      && (Lookup(envs[i].contracts, c.display).None? ==>
            r[i].contracts == Upsert(envs[i].contracts, ContractInfo(c.name, None, Some(id))))
  {
    var i := ActiveIndex(envs).value;
    var m := ActiveEnvMut(envs, chains, keys, a);
    assert m == EnvEdit(Ok(i), envs);
    var found := FindContract(m, c.display);
    var r := StoreRecorded(envs, chains, keys, a, c, id);
    if found.Ok? {
      var s := found.value;
      var entry := envs[s.env].contracts[s.entry];
      assert r == EntrySet(envs, s, entry.(codeId := Some(id)));
      SameFlagsSameActive(envs, r);
      assert r[i].contracts == envs[i].contracts[s.entry := entry.(codeId := Some(id))];
      SameNameSameLookup(envs[i].contracts, s.entry, entry.(codeId := Some(id)));
    } else {
      assert Lookup(envs[i].contracts, c.display).None?;
      var added := ContractAdded(envs, chains, keys, a, ContractInfo(c.name, None, Some(id)));
      assert r == envs[i := envs[i].(contracts := Upsert(envs[i].contracts, ContractInfo(c.name, None, Some(id))))];
      SameFlagsSameActive(envs, r);
    }
  }

  // ----- execute_instantiate -----

  /** A turn that succeeds leaves the active environment where it was and finds the external under its name, with its address and code id. */
  lemma ExternalTurnRegisters(chains: seq<LegacyChain>, envs: seq<Env>, keys: seq<UserKey>, w: World, base: nat, admin: string,
                              e: ExternalInstantiate, sent: seq<Batch>, n: string)
    requires ExternalTurn(chains, envs, keys, w, base, admin, e, sent).result.Ok?
    ensures var t := ExternalTurn(chains, envs, keys, w, base, admin, e, sent);
      && ActiveIndex(t.envs) == ActiveIndex(envs) && ActiveIndex(envs).Some?
      && w.answer(base + |sent|, t.sent[|sent|]).Committed? && |w.answer(base + |sent|, t.sent[|sent|]).addresses| > 0
      && ActiveLookup(t.envs, e.name) == Some(ContractInfo(e.name, Some(w.answer(base + |sent|, t.sent[|sent|]).addresses[0]), Some(e.codeId)))
      && (n != e.name ==> ActiveLookup(t.envs, n) == ActiveLookup(envs, n))
  {
    var t := ExternalTurn(chains, envs, keys, w, base, admin, e, sent);
    var i := ActiveIndex(envs).value;
    var added := ContractInfo(e.name, Some(w.answer(base + |sent|, t.sent[|sent|]).addresses[0]), Some(e.codeId));
    assert t.envs == envs[i := envs[i].(contracts := Upsert(envs[i].contracts, added))];
    SameFlagsSameActive(envs, t.envs);
    UpsertLookup(envs[i].contracts, added, n);
  }

  /** Running the externals keeps the active environment, and names none of them register are found as before. */
  lemma {:induction false} ExternalsKeepOthers(chains: seq<LegacyChain>, envs: seq<Env>, keys: seq<UserKey>, w: World, base: nat, admin: string,
                                               es: seq<ExternalInstantiate>, sent: seq<Batch>, n: string)
    requires forall k :: 0 <= k < |es| ==> es[k].name != n
    ensures var o := ExternalsRun(chains, envs, keys, w, base, admin, es, sent);
      && (o.result.Ok? && |es| > 0 ==> ActiveIndex(o.envs) == ActiveIndex(envs))
      && (o.result.Ok? ==> ActiveLookup(o.envs, n) == ActiveLookup(envs, n))
    decreases |es|
  {
    if |es| > 0 {
      var t := ExternalTurn(chains, envs, keys, w, base, admin, es[0], sent);
      if t.result.Ok? {
        ExternalTurnRegisters(chains, envs, keys, w, base, admin, es[0], sent, n);
        ExternalsKeepOthers(chains, t.envs, keys, w, base, admin, es[1..], t.sent, n);
      }
    }
  }

  /**
   * Once its entry is found at `slot` (the first entry of the active
   * environment named by the display form), a successful
   * `execute_instantiate` sends first one instantiation of the entry's code id
   * with the message, the common label and the contract's admin, and sets the
   * first address of the answer on the entry; unless an external reuses the
   * name, a lookup by the display form then finds the entry with that address.
   */
  lemma OwnerRecordsAddress(chains: seq<LegacyChain>, envs: seq<Env>, keys: seq<UserKey>, w: World, base: nat, c: Descriptor, msg: Json, slot: Slot)
    requires slot.env < |envs| && slot.entry < |envs[slot.env].contracts|
    requires ActiveIndex(envs) == Some(slot.env) && ContractIndex(envs[slot.env].contracts, c.display) == Some(slot.entry)
    requires OwnerRun(chains, envs, keys, w, base, c, msg, slot).result.Ok?
    ensures envs[slot.env].contracts[slot.entry].codeId.Some? && c.externals.Ok?
    ensures var o := OwnerRun(chains, envs, keys, w, base, c, msg, slot);
      o.sent[0] == InstantiateBatch([InstantiateRequest(envs[slot.env].contracts[slot.entry].codeId.value, msg, Label, Some(c.admin))])
    ensures var o := OwnerRun(chains, envs, keys, w, base, c, msg, slot);
      w.answer(base, o.sent[0]).Committed? && |w.answer(base, o.sent[0]).addresses| > 0
    ensures var o := OwnerRun(chains, envs, keys, w, base, c, msg, slot);
      (forall k :: 0 <= k < |c.externals.value| ==> c.externals.value[k].name != c.display) ==>
        ActiveLookup(o.envs, c.display) == Some(envs[slot.env].contracts[slot.entry].(addr := Some(w.answer(base, o.sent[0]).addresses[0])))
  {
    var o := OwnerRun(chains, envs, keys, w, base, c, msg, slot);
    var entry := envs[slot.env].contracts[slot.entry];
    var b := InstantiateBatch([InstantiateRequest(entry.codeId.value, msg, Label, Some(c.admin))]);
    var reply := w.answer(base, b);
    var owned := entry.(addr := Some(reply.addresses[0]));
    var written := EntrySet(envs, slot, owned);
    assert o == ExternalsSaved(chains, written, keys, w, base, c, [b]);
    assert o.sent[0] == o.sent[..1][0] == b;
    if forall k :: 0 <= k < |c.externals.value| ==> c.externals.value[k].name != c.display {
      assert owned.name == c.display;
      EntrySetLookup(envs, slot, owned);
      var ext := ExternalsRun(chains, written, keys, w, base, c.admin, c.externals.value, [b]);
      assert o.envs == ext.envs && ext.result.Ok?;
      ExternalsKeepOthers(chains, written, keys, w, base, c.admin, c.externals.value, [b], c.display);
      assert ActiveLookup(o.envs, c.display) == Some(owned);
    }
  }

  /** Writing through the slot of the first entry of the active environment with a name makes a lookup by that name find what was written. */
  lemma EntrySetLookup(envs: seq<Env>, slot: Slot, owned: ContractInfo)
    requires slot.env < |envs| && slot.entry < |envs[slot.env].contracts|
    requires ActiveIndex(envs) == Some(slot.env) && ContractIndex(envs[slot.env].contracts, owned.name) == Some(slot.entry)
    ensures ActiveLookup(EntrySet(envs, slot, owned), owned.name) == Some(owned)
  {
    var written := EntrySet(envs, slot, owned);
    SameFlagsSameActive(envs, written);
    assert written[slot.env].contracts == envs[slot.env].contracts[slot.entry := owned];
    SameNameSameLookup(envs[slot.env].contracts, slot.entry, owned);
  }

  /**
   * A successful `execute_instantiate` found an active environment with an
   * entry under the contract's display form that has a code id; its first
   * transaction instantiates that code id with the substituted instantiate
   * message, the common label and the contract's admin; and, unless an
   * external reuses the name, the entry afterwards holds the address the
   * chain answered, everything else about it unchanged.
   */
  lemma InstantiateRecordsAddress(chains: seq<LegacyChain>, envs: seq<Env>, keys: seq<UserKey>, w: World, base: nat, c: Descriptor)
    requires InstantiateRun(chains, envs, keys, w, base, c).result.Ok?
    ensures var o := InstantiateRun(chains, envs, keys, w, base, c);
      && c.instantiateMsg.Ok? && ActiveIndex(envs).Some? && c.externals.Ok?
      && Rewritten(c.instantiateMsg.value, envs[ActiveIndex(envs).value].contracts).Ok?
      && ActiveLookup(envs, c.display).Some? && ActiveLookup(envs, c.display).value.codeId.Some?
      && var entry := ActiveLookup(envs, c.display).value;
         var msg := Rewritten(c.instantiateMsg.value, envs[ActiveIndex(envs).value].contracts).value;
         && o.sent[0] == InstantiateBatch([InstantiateRequest(entry.codeId.value, msg, Label, Some(c.admin))])
         && w.answer(base, o.sent[0]).Committed? && |w.answer(base, o.sent[0]).addresses| > 0
         && ((forall k :: 0 <= k < |c.externals.value| ==> c.externals.value[k].name != c.display) ==>
               ActiveLookup(o.envs, c.display) == Some(entry.(addr := Some(w.answer(base, o.sent[0]).addresses[0]))))
  {
    var i := ActiveIndex(envs).value;
    var msg := Rewritten(c.instantiateMsg.value, envs[i].contracts).value;
    var l := Resolve(chains, envs, keys, w, c.display);
    assert InstantiateRun(chains, envs, keys, w, base, c) == LocatedRun(chains, envs, keys, w, base, c, msg);
    assert l.envs == envs && l.result.Ok?;
    var slot := l.result.value;
    assert LocatedRun(chains, envs, keys, w, base, c, msg) == OwnerRun(l.chains, envs, keys, w, base, c, msg, slot);
    assert ContractIndex(envs[i].contracts, c.display) == Some(slot.entry);
    OwnerRecordsAddress(l.chains, envs, keys, w, base, c, msg, slot);
  }

  // ----- execute_migrate -----

  /**
   * `execute_migrate` sends one migration: the contract's substituted
   * instantiate message, to the registered entry's address, with its
   * registered code id.
   */
  lemma MigrateSendsInstantiateMsg(chains: seq<LegacyChain>, envs: seq<Env>, keys: seq<UserKey>, w: World, base: nat, c: Descriptor)
    ensures var o := MigrateRun(chains, envs, keys, w, base, c);
      |o.sent| > 0 ==>
        && c.instantiateMsg.Ok? && ActiveIndex(envs).Some?
        && Rewritten(c.instantiateMsg.value, envs[ActiveIndex(envs).value].contracts).Ok?
        && Resolve(chains, envs, keys, w, c.display).result.Ok?
        && var l := Resolve(chains, envs, keys, w, c.display);
           var entry := l.envs[l.result.value.env].contracts[l.result.value.entry];
           && entry.addr.Some? && entry.codeId.Some?
           && o.sent == [MigrateBatch([MigrateRequest(Rewritten(c.instantiateMsg.value, envs[ActiveIndex(envs).value].contracts).value,
                                                      entry.addr.value, entry.codeId.value)])]
  {
    var o := MigrateRun(chains, envs, keys, w, base, c);
    if |o.sent| > 0 {
      var l := Resolve(chains, envs, keys, w, c.display);
      var entry := l.envs[l.result.value.env].contracts[l.result.value.entry];
      assert o == MigrateEntry(l.chains, l.envs, keys, w, base, Rewritten(c.instantiateMsg.value, envs[ActiveIndex(envs).value].contracts).value, entry);
    }
  }
}
