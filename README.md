# wasm-deploy, modelled in Dafny

This project models the core of wasm-deploy, a command-line tool that
builds, uploads, instantiates, configures and migrates CosmWasm contracts on
Cosmos chains, and that keeps a registry of where each contract lives. The
model states and proves what that core does.

It has these parts, one Dafny module per component:

- **Contract registry.** `Environments`, `Registry`, `FileRegistry` and
  `LegacyRegistry` model the three generations of the registry `Config`.
  They keep the environments, each with its `{name, addr?, code_id?}`
  entries. They look up the active environment (the first one flagged
  active), the chain, the key and contracts, with typed failures. They
  upsert a contract by name, reject duplicate chains, keys and environments,
  and activate exactly the selected environment. `save` is modelled as a
  snapshot of the registry.
- **Deployment stage engine.** `Stages` holds one specification per stage of
  `execute_deployment`: the ordered request list, the empty-batch rule and
  the positional write-back of code ids and addresses. `Deployment` is the
  imperative engine, whose loops are proved to build and write exactly what
  those specifications say. `ChainClient` is the abstract chain: a log of
  submitted batches and an answer function.
- **Commands.** `Commands` models chunked `store_code` and the composite
  `deploy`, `instantiate` and `migrate` orders. `Edits` models the
  chain/key/contract/environment delete and select edits.
- **Address substitution.** `Substitution` models `replace_strings`: a
  string `x&name` becomes the registered address of `name`. It is modelled
  as a specification on values and as an in-place walk proved against it.
  The copy in src/contract.rs is the same as the one in src/utils.rs; both
  are the walk with an unnamed error.
- **Older engines.** `WasmMsg` models `msg_contract` of src/wasm_msg.rs.
  `LegacyContract`, `LegacyCommands` and `LegacyCommandFacts` model the
  per-contract `execute_*` commands of src/contract.rs. Both apply address
  substitution and differ from the newest engine where the source does.
- **Small pure pieces.**
  - `Chains`: the upgrade of the version-0.1 chain list to the version-0.6
    table.
  - `Workspace` and `Settings`: workspace path derivation and the checked
    and unchecked setters.
  - `ContractDefaults`: the defaults of the `Deploy` and
    `ContractInteractive` traits.
  - `CosmRs`: the response-code checks and the event search.
  - `DeriveContracts` and `DeriveContractsOld`: the option parsing and code
    generation of the two derive macros.
  - `OrderedMap` stands for the `BTreeMap` they drain.
  - `Tokens` is the token level of their input.
- **Shared helpers.** `Wrappers` holds `Option`/`Result`. `Types` holds the
  shared records and the prompt. `Seqs` holds the iterator combinators the
  source uses (`position`, `find`, `retain`, and a flat-map that stops at the
  first error).

The chain, the file system, the interactive prompts, address parsing, case
conversion and the token parser are parameters of the model. The chain is an
answer function over the index and content of each batch. The file system is
a set of files and directories with their contents. A prompt is the answer
given. The conversions and the parser are uninterpreted functions.

## Model

| member | source | states |
|---|---|---|
| Environments.ActiveIndex | wasm-deploy/src/config/config.rs:79 | the index of the first environment flagged active, none exactly when no environment is |
| Environments.ContractIndex | wasm-deploy/src/config/config.rs:248 | the index of the first contract entry with that name, none exactly when no entry has it |
| Environments.Lookup | wasm-deploy/src/config/config.rs:238 | finds an entry of that name exactly when one exists, and it is one of the list's entries |
| Environments.Upsert | wasm-deploy/src/config/config.rs:208-215 | an existing name keeps the list's length, a new one is appended at the end; the contract is in the result and entries of other names stay where they were |
| Environments.UpsertLookup | wasm-deploy/src/config/config.rs:203-217 | after an upsert the name finds the new entry and every other name finds what it found before |
| Environments.UpsertFinds | wasm-deploy/src/config/config.rs:208-215 | after an upsert the name finds exactly the upserted entry |
| Environments.UpsertKeepsReplaced | wasm-deploy/src/config/config.rs:213 | replacing an entry in place leaves every other name's lookup unchanged |
| Environments.UpsertKeepsAppended | wasm-deploy/src/config/config.rs:214 | appending a new entry leaves every other name's lookup unchanged |
| Environments.UpsertIdempotent | wasm-deploy/src/config/config.rs:203-217 | adding the same contract twice is the same as adding it once |
| Environments.Activate | wasm-deploy/src/config/config.rs:332 | every environment keeps its fields, and is active exactly when it equals the selection |
| Environments.ActivateSelectsExactlyOne | wasm-deploy/src/config/config.rs:330-334 | with distinct environment labels, activating a listed environment leaves exactly that one active, and it is the one the active lookup then finds |
| Environments.ActivatePreservesIds | wasm-deploy/src/config/config.rs:330-334 | activation keeps environment labels distinct |
| Environments.WithActiveEntries | wasm-deploy/src/config/config.rs:85-90 | replacing the active environment's contract list touches only that environment, and nothing when none is active |
| Environments.WithActiveEntriesKeepsActive | wasm-deploy/src/config/config.rs:85-90 | replacing the active contract list keeps the same environment active, the replacement is what is read back, a second replacement overrides the first, and writing back what was read changes nothing |
| Environments.SameNamesSameIndex | wasm-deploy/src/config/config.rs:246-254 | lists with the same names position by position find a name at the same index, so editing an entry's other fields never moves a lookup |
| Environments.AppendFreshKeepsIdsDistinct | wasm-deploy/src/config/config.rs:300-325 | pushing an environment with a fresh label, and then activating any answer, keeps the labels distinct |
| Registry.Config.Load | wasm-deploy/src/config/config.rs:58-65 | a loaded registry holds exactly the stored snapshot, which is also what is on disk |
| Registry.Config.Save | wasm-deploy/src/config/config.rs:67-76 | saving writes the whole current registry and changes nothing else |
| Registry.Config.GetActiveEnv | wasm-deploy/src/config/config.rs:78-83 | succeeds exactly when some environment is flagged active, with the first such one; otherwise env-not-found |
| Registry.Config.GetActiveChainInfo | wasm-deploy/src/config/config.rs:92-98 | env-not-found without an active environment; otherwise the chain stored under the environment's chain label, or chain-config-not-found when the label is unknown |
| Registry.Config.GetActiveKey | wasm-deploy/src/config/config.rs:101-116 | env-not-found without an active environment; otherwise the first stored key with the environment's key name, or key-not-found naming it |
| Registry.Config.GetContract | wasm-deploy/src/config/config.rs:236-244 | env-not-found without an active environment; otherwise the first contract of the active environment with that name, or contract-not-found naming it |
| Registry.Config.GetContractSlot | wasm-deploy/src/config/config.rs:246-254 | the mutable lookup fails exactly as the shared one does, and on success points at the active environment and at the first entry of that name, which holds what the shared lookup returns |
| Registry.Config.GetContractAddr | wasm-deploy/src/config/config.rs:225-234 | passes on the lookup's error; otherwise the contract's address, or address-not-found naming the contract when it has none |
| Registry.Config.SetEntry | wasm-deploy/src/config/config.rs:246-254 | writing through the slot of `get_contract_mut` replaces exactly that entry and nothing else |
| Registry.Config.AddChainFrom | wasm-deploy/src/config/config.rs:118-130 | a label already present is refused with chain-already-exists and the table is unchanged; otherwise the chain is stored under the label and returned |
| Registry.Config.AddContractFrom | wasm-deploy/src/config/config.rs:203-217 | env-not-found and no change without an active environment; otherwise the active environment's list replaces the first entry of the same name, or gains the contract at the end, and nothing else changes |
| Registry.Config.AddKeyFrom | wasm-deploy/src/config/config.rs:256-262 | a key whose name is taken is refused with key-already-exists and the list is unchanged; otherwise it is appended |
| Registry.Config.ChangeEnv | wasm-deploy/src/config/config.rs:330-334 | an answer that is not one of the environments fails the prompt and changes nothing; otherwise exactly the environments equal to the answer become active |
| Registry.Config.AddEnv | wasm-deploy/src/config/config.rs:295-328 | a taken label is refused with env-already-exists; chain and key answers must be among the offered choices; the new environment is pushed active with no contracts, and when it is not the only one the `change_env` answer decides which environments end active, the result being the last environment |
| FileRegistry.Config.Init | wasm-deploy/src/file.rs:99-103 | a new registry has default user settings, no shell-completion directory, no chains, environments or keys |
| FileRegistry.Config.Save | wasm-deploy/src/file.rs:114-123 | saving writes the whole current registry and changes nothing else |
| FileRegistry.Config.GetActiveEnv | wasm-deploy/src/file.rs:125-130 | env-not-found exactly when no environment is flagged active; otherwise the first active one |
| FileRegistry.Config.GetActiveChainInfo | wasm-deploy/src/file.rs:139-145 | env-not-found without an active environment; otherwise the first listed chain whose chain id is the environment's, or chain-config-not-found when none is |
| FileRegistry.Config.GetActiveKey | wasm-deploy/src/file.rs:148-163 | env-not-found without an active environment; otherwise the first stored key with the environment's key name, or key-not-found naming it |
| FileRegistry.Config.GetContract | wasm-deploy/src/file.rs:275-281 | env-not-found without an active environment; otherwise the first active contract of that name, or contract-not-found without a name |
| FileRegistry.Config.GetContractAddr | wasm-deploy/src/file.rs:264-273 | passes on the lookup's error; otherwise the contract's address, or address-not-found naming the contract |
| FileRegistry.Config.AddChainFrom | wasm-deploy/src/file.rs:165-177 | a chain whose chain id is already listed is refused with chain-already-exists and nothing changes; otherwise it is appended; distinct chain ids stay distinct |
| FileRegistry.Config.AddContractFrom | wasm-deploy/src/file.rs:242-256 | env-not-found and no change without an active environment; otherwise the active list replaces the first entry of the same name or appends, and the contract is then what its name looks up |
| FileRegistry.Config.AddKeyFrom | wasm-deploy/src/file.rs:291-297 | a taken key name is refused with key-already-exists and nothing changes; otherwise the key is appended; distinct key names stay distinct |
| FileRegistry.Config.ChangeEnv | wasm-deploy/src/file.rs:363-367 | an answer that is not an environment fails the prompt and changes nothing; otherwise exactly the environments equal to it become active |
| FileRegistry.Config.AddEnv | wasm-deploy/src/file.rs:326-361 | a taken label is refused with env-already-exists; the chain answer must be a listed chain id and the key answer a key name; the new environment is pushed active and, when others exist, the `change_env` answer decides which end active; the result is the last environment |
| LegacyRegistry.AddedEnv | src/file.rs:251-273 | `add_env`: a taken label is refused with env-already-exists and nothing changes; with listed chain and key answers, a chain id that does not convert to a `chain::Id` panics at the `unwrap` and nothing changes; it succeeds exactly when the label is fresh, the chain and key answers are listed, the chain id converts, and (with other environments present) the `change_env` answer is one of them; then the new environment is the last of one more, and every environment keeps its fields except the active flag |
| LegacyRegistry.ActiveEnvMut | src/file.rs:113-121 | the first active environment when there is one, without change; otherwise the outcome of `add_env` |
| LegacyRegistry.ActiveChainInfo | src/file.rs:130-137 | after `get_active_env_mut`, the first listed chain with the environment's chain id; when none is listed, the chain the user enters is added (refused with chain-already-exists if its id is listed, prompt failure if nothing is entered) |
| LegacyRegistry.ActiveKey | src/file.rs:140-155 | env-not-found without an active environment; otherwise the first stored key with the environment's key name, or key-not-found naming it |
| LegacyRegistry.FindContract | src/file.rs:214-217 | after the active environment is resolved, the slot of the first contract of that name in it, or contract-not-found without a name |
| LegacyRegistry.EntrySet | src/file.rs:214-217 | writing through the returned `&mut` replaces exactly that entry and leaves every other entry and environment as it was |
| LegacyRegistry.ContractAdded | src/file.rs:183-190 | `add_contract_from` fails as `get_active_env_mut` does; otherwise the resolved environment's list replaces the first entry of the same name or appends |
| LegacyRegistry.Config.Init | src/file.rs:91-95 | a new registry has no shell-completion directory, chains, environments or keys |
| LegacyRegistry.Config.Save | src/file.rs:106-111 | saving writes the whole current registry and changes nothing else |
| LegacyRegistry.Config.GetActiveEnv | src/file.rs:123-128 | env-not-found exactly when no environment is flagged active; otherwise the first active one |
| LegacyRegistry.Config.ChangeEnv | src/file.rs:275-279 | an answer that is not an environment fails the prompt and changes nothing; otherwise exactly the environments equal to it become active |
| LegacyRegistry.Config.AddEnv | src/file.rs:251-273 | the environment list and the result become those of `AddedEnv`, including the panic on a chain id that does not convert |
| LegacyRegistry.Config.GetActiveEnvMut | src/file.rs:113-121 | the environment list and the result become those of `ActiveEnvMut` |
| LegacyRegistry.Config.GetActiveChainInfo | src/file.rs:130-137 | the chains, environments and result become those of `ActiveChainInfo` |
| LegacyRegistry.Config.AddChainFrom | src/file.rs:166-174 | a listed chain id is refused with chain-already-exists and nothing changes; otherwise the chain is appended |
| LegacyRegistry.Config.AddContractFrom | src/file.rs:183-190 | the environment list becomes that of `ContractAdded`, and the result is the contract or the error of resolving the active environment |
| LegacyRegistry.Config.GetContract | src/file.rs:214-217 | resolves the active environment as `get_active_env_mut` does (possibly creating one) and returns `FindContract`'s slot |
| LegacyRegistry.Config.GetContractAddrMut | src/file.rs:198-204 | passes on the lookup's error; otherwise the entry's address, or no-address when it has none |
| LegacyRegistry.Config.GetCodeId | src/file.rs:206-212 | passes on the lookup's error; otherwise the entry's code id, or code-id-not-found |
| LegacyRegistry.Config.SetEntry | src/file.rs:214-217 | writing through a found slot changes that entry only |
| LegacyRegistry.Config.AddKeyFrom | src/file.rs:219-225 | a taken key name is refused with key-already-exists and nothing changes; otherwise the key is appended |
| LegacyRegistry.AddedEnvKeepsIdsDistinct | src/file.rs:251-273 | `add_env` keeps environment labels distinct |
| LegacyRegistry.ActiveEnvMutMayMissActive | src/file.rs:113-121 | when no environment is active and the `change_env` answer picks an older environment, `get_active_env_mut` hands back the newly pushed environment although it is not the active one |
| LegacyRegistry.ActiveEnvMutFindsNewWhenPicked | src/file.rs:113-121 | when the new environment is the first or is the one picked, it is what `get_active_env_mut` returns and it is the active one |
| LegacyRegistry.ActiveEnvMutLeavesActive | src/file.rs:113-121 | after a successful `get_active_env_mut` an environment is active, so a second call changes nothing |
| LegacyRegistry.ChainInfoLeavesActive | src/file.rs:130-137 | after a successful `get_active_chain_info` an environment is active, so a later `get_active_env_mut` changes nothing whatever the chains are |
| Edits.MultiSelect | wasm-deploy/src/commands.rs:149-150 | a multi-select prompt succeeds exactly when it has options and every answer is one of them, and then yields the answers; otherwise the prompt fails |
| Edits.DropEachOnce | wasm-deploy/src/commands.rs:175-177 | repeated `retain` passes, one per picked key, leave exactly the elements whose key was not picked, in their order |
| Edits.RemoveEachLeaves | wasm-deploy/src/commands.rs:151-153 | removing the picked labels one at a time leaves exactly the other chains, with their values |
| Edits.ChainDelete | wasm-deploy/src/commands.rs:143-157 | a failed pick changes and saves nothing; otherwise the picked chains are removed and the registry is saved |
| Edits.RemoveChains | wasm-deploy/src/commands.rs:151-153 | the loop removes exactly the picked labels |
| Edits.KeyDelete | wasm-deploy/src/commands.rs:168-177 | a failed pick changes and saves nothing; otherwise every key whose name was picked is dropped and the registry is saved |
| Edits.DropKeys | wasm-deploy/src/commands.rs:175-177 | the loop drops exactly the keys with picked names |
| Edits.ContractDelete | wasm-deploy/src/commands.rs:201-210 | env-not-found without an active environment, and a failed pick, change and save nothing; otherwise the picked contracts leave the active environment's list only, and the registry is saved |
| Edits.DropFromActive | wasm-deploy/src/commands.rs:206-208 | the loop drops exactly the picked contracts from the active list |
| Edits.EnvDelete | wasm-deploy/src/commands.rs:225-232 | a failed pick changes nothing; otherwise the picked environments are removed, and then the activation answer must be a remaining environment: if so exactly the equal ones become active and the registry is saved, if not the removal stays in memory unsaved |
| Edits.DropEnvs | wasm-deploy/src/commands.rs:227-229 | the loop drops exactly the picked environments |
| Edits.EnvSelect | wasm-deploy/src/commands.rs:233-236 | an answer that is not an environment changes and saves nothing; otherwise exactly the equal environments become active and the registry is saved |
| Edits.EnvDeleteOutcome | wasm-deploy/src/commands.rs:225-232 | with distinct labels, after deletion no picked environment remains, labels stay distinct, and activation leaves exactly the chosen environment active |
| Substitution.AfterAmpersand | wasm-deploy/src/utils.rs:28 | `split_once('&')`: there is a remainder exactly when the string contains `&`, and it is what follows the first one |
| Substitution.SubstituteString | wasm-deploy/src/utils.rs:27-41 | a string without `&`, or whose remainder names no registered contract, stays as it is; one naming a contract becomes that contract's address, or fails with address-not-found when it has none |
| Substitution.Replaced | wasm-deploy/src/utils.rs:58-66 | the caller goes on with the rewritten message exactly when the walk succeeded, and otherwise with the walk's error |
| Substitution.ReplaceStrings | wasm-deploy/src/utils.rs:25-55 | the in-place walk leaves the value and the result the walk's specification gives: strings rewritten, array items and object values visited in order, stopping at the first failure with what was rewritten before kept |
| Substitution.ReplaceItems | wasm-deploy/src/utils.rs:42-46 | the array loop rewrites the items left to right and stops at the first failing item, leaving the later ones untouched |
| Substitution.ReplaceFields | wasm-deploy/src/utils.rs:47-51 | the object loop rewrites the values in order, keeps the keys, and stops at the first failing value |
| Substitution.SubstituteKeepsShape | wasm-deploy/src/utils.rs:25-55 | the walk only ever replaces strings: the rewritten value has the same shape, the same array lengths and the same keys |
| Substitution.ItemsKeepShape | wasm-deploy/src/utils.rs:42-46 | the array walk keeps the number of items and each item's shape |
| Substitution.FieldsKeepShape | wasm-deploy/src/utils.rs:47-51 | the object walk keeps the number of fields, their keys and each value's shape |
| Substitution.NoReferenceUnchanged | wasm-deploy/src/utils.rs:25-55 | a message with no `&name` reference to a registered contract is left exactly as it was and succeeds |
| Substitution.ItemsUnchanged | wasm-deploy/src/utils.rs:42-46 | items with no such reference are left as they were |
| Substitution.FieldsUnchanged | wasm-deploy/src/utils.rs:47-51 | fields with no such reference are left as they were |
| Substitution.SubstituteFailure | wasm-deploy/src/utils.rs:30-38 | the walk fails only with address-not-found for a registered contract, found by its name, that has no address |
| Substitution.ItemsFailure | wasm-deploy/src/utils.rs:42-46 | an array walk fails only for such a contract |
| Substitution.FieldsFailure | wasm-deploy/src/utils.rs:47-51 | an object walk fails only for such a contract |
| Substitution.AllAddressedSucceeds | wasm-deploy/src/utils.rs:25-55 | when every registered contract has an address, the walk cannot fail |
| Substitution.NamingOnlyChangesTheError | src/utils.rs:8-35 | the older copy, whose error does not name the contract, rewrites the same tree and fails on exactly the same inputs as the newer one |
| Substitution.ItemsNaming | src/utils.rs:23-27 | the same for an array walk |
| Substitution.FieldsNaming | src/utils.rs:28-32 | the same for an object walk |
| Substitution.GetCodeId | wasm-deploy/src/utils.rs:75-81 | env-not-found without an active environment, contract-not-found naming a missing contract, code-id-not-found when it has none, and otherwise its registered code id |
| Substitution.GetAddr | wasm-deploy/src/utils.rs:83-92 | env-not-found without an active environment, contract-not-found naming a missing contract, address-not-found naming one without an address, and otherwise its registered address |
| Commands.Chunks | wasm-deploy/src/commands.rs:578 | `chunks(n)` gives non-empty pieces of at most n contracts |
| Commands.ChunksPartition | wasm-deploy/src/commands.rs:578-581 | the chunks, concatenated in order, are exactly the contract list, and every chunk but the last has exactly n contracts |
| Commands.Then | wasm-deploy/src/commands.rs:580 | one more `execute_deployment` does nothing after an earlier error, sends at most one more batch after those already sent, never undoes a save, sends and writes nothing in a dry run, and writes only in a recording stage |
| Commands.Continue | wasm-deploy/src/deployment.rs:32-44 | a stage run adds at most one batch to those sent before |
| Commands.Advance | wasm-deploy/src/deployment.rs:32-326 | a state that reflects the progress so far, changed as one `execute_deployment` changes it, reflects the progress of that one more stage |
| Commands.AdvanceWith | wasm-deploy/src/deployment.rs:32-326 | the same for a given stage run: the batches, the contract list, the save and the result all move together |
| Commands.Starting | wasm-deploy/src/commands.rs:572-583 | before any stage the registry and the chain reflect the empty progress |
| Commands.RunOne | wasm-deploy/src/commands.rs:580 | running one stage takes the registry and the chain from the progress so far to the progress with that stage added |
| Commands.StoreChunksStops | wasm-deploy/src/commands.rs:579-581 | once a chunk fails, the later chunks change nothing: the loop stops at the first failing chunk |
| Commands.StoreCodeCommand | wasm-deploy/src/commands.rs:572-583 | `store_code` stores chunk by chunk of `store_code_chunk_size` contracts (a zero size panics) and ends in the state and result of its specification |
| Commands.StoreEachChunk | wasm-deploy/src/commands.rs:579-581 | the chunk loop ends in the state and result of running StoreCode on each chunk in turn |
| Commands.InstantiateCommand | wasm-deploy/src/commands.rs:585-607 | `instantiate` runs Instantiate then ExternalInstantiate on the same contracts, the second only when the first succeeded |
| Commands.SetConfigCommand | wasm-deploy/src/commands.rs:633-640 | `set_config` is exactly one SetConfig stage |
| Commands.SetUpCommand | wasm-deploy/src/commands.rs:642-649 | `set_up` is exactly one SetUp stage |
| Commands.MigrateCommand | wasm-deploy/src/commands.rs:609-631 | `migrate` builds and stores first unless `no_build` (a failed build stops it), then runs Migrate |
| Commands.Deploy | wasm-deploy/src/commands.rs:248-263 | `deploy` as written: build unless `no_build`, store, instantiate, set-config, set-up, stopping at the first error, with `instantiate` given `dry_run` as its interactive flag and `false` as its dry-run flag |
| Commands.DeployIntended | wasm-deploy/src/commands.rs:248-263 | `deploy` as intended: the same sequence with a non-interactive instantiate that is a dry run exactly when the deployment is |
| Commands.StoreChunksDryRun | wasm-deploy/src/commands.rs:572-583 | a dry-run `store_code` sends nothing, writes nothing and leaves the contract list alone |
| Commands.StoreChunksWithoutPreamble | wasm-deploy/src/deployment.rs:38-43 | when the active chain or key cannot be resolved, `store_code` sends and writes nothing and fails with that error as soon as there is a chunk |
| Commands.DeployIntendedDryRun | wasm-deploy/src/commands.rs:248-263 | the intended `deploy` in a dry run sends nothing, writes nothing and leaves the contract list alone |
| Commands.DeployDryRunSubmits | wasm-deploy/src/commands.rs:259 | the `deploy` as written, asked for a dry run, still submits an Instantiate batch to the chain (shown with no contracts) |
| Commands.DeployWithoutPreamble | wasm-deploy/src/deployment.rs:38-43 | when the active chain or key cannot be resolved, `deploy` fails with that error and sends and writes nothing |
| Stages.StorePlanReadsEveryArtifact | wasm-deploy/src/deployment.rs:46-62 | StoreCode reads `<artifacts_dir>/<bin_name>.wasm.gz` for every contract: it goes ahead exactly when every artifact exists, the i-th request then carries the i-th contract's bytes, and otherwise it fails with the I/O error of the first missing artifact |
| Stages.RecordCodeId | wasm-deploy/src/deployment.rs:76-84 | writing one code id back never drops or renames an existing entry of the contract list |
| Stages.RecordCodeIds | wasm-deploy/src/deployment.rs:75-86 | the whole StoreCode write-back never drops or renames an existing entry |
| Stages.RecordCodeIdLookup | wasm-deploy/src/deployment.rs:76-84 | after one code id is written back, the contract's entry holds that code id and the address it had before (none for a new entry); every other name resolves as before |
| Stages.RecordCodeIdsPositional | wasm-deploy/src/deployment.rs:75-86 | for contracts with distinct names, the i-th contract's entry ends with the i-th returned code id and its earlier address, and names outside the contract list resolve as before |
| Stages.RecordCodeIdsElsewhere | wasm-deploy/src/deployment.rs:75-86 | a name that is none of the contracts' resolves after the write-back exactly as before |
| Stages.RecordCodeIdsAt | wasm-deploy/src/deployment.rs:75-86 | the i-th contract ends with the i-th code id, whatever the later contracts are |
| Stages.PendingsFollowContracts | wasm-deploy/src/deployment.rs:94-104 | collecting the instantiate messages fails only in interactive mode, with the error of the first contract whose `instantiate()` fails; otherwise each contract is paired, in order, with `instantiate()` (interactive) or `instantiate_msg()` |
| Stages.InstantiateItem | wasm-deploy/src/deployment.rs:109-125 | a contract without a message adds nothing; one with a message adds a request exactly when it is registered, has a code id and its admin parses as an address, and otherwise fails with contract-not-found, then code-id-not-found, then invalid-address, in that order |
| Stages.InstantiatePlanSkipsSilent | wasm-deploy/src/deployment.rs:105-126 | Instantiate builds one request per contract that has a message, in order, and succeeds exactly when every such contract is instantiable |
| Stages.InstantiatePlanFirstError | wasm-deploy/src/deployment.rs:109-126 | a failing Instantiate plan fails with the error of the first contract with a message that cannot be instantiated |
| Stages.RecordAddress | wasm-deploy/src/deployment.rs:141-142 | writing one address back keeps the contract list's length and every entry's name |
| Stages.RecordAddresses | wasm-deploy/src/deployment.rs:140-143 | the whole Instantiate write-back keeps the list's length and names |
| Stages.RecordAddressLookup | wasm-deploy/src/deployment.rs:141-142 | after one address is written back, the contract's entry is its old entry with that address; every other name resolves as before |
| Stages.RecordAddressesPositional | wasm-deploy/src/deployment.rs:140-143 | the k-th contract that had a message gets the k-th returned address (the `has_msg` positions), and other names resolve as before |
| Stages.RecordAddressesElsewhere | wasm-deploy/src/deployment.rs:140-143 | a name outside `has_msg` resolves after the write-back exactly as before |
| Stages.RecordAddressesAt | wasm-deploy/src/deployment.rs:140-143 | the k-th contract of `has_msg` ends with the k-th address |
| Stages.ExternalItem | wasm-deploy/src/deployment.rs:151-165 | a contract with externals fails exactly when its admin does not parse as an address, with invalid-address; one without externals adds nothing |
| Stages.ExternalPlanOrder | wasm-deploy/src/deployment.rs:149-166 | ExternalInstantiate goes ahead exactly when every contract with externals has a parseable admin; its requests follow the contracts and within each its externals, each with its own code id, message and label and its owner's admin |
| Stages.RecordExternalsLookup | wasm-deploy/src/deployment.rs:185-196 | for externals with distinct names, the j-th is registered under its name with the j-th address and its code id; every other name resolves as before |
| Stages.RecordExternalsElsewhere | wasm-deploy/src/deployment.rs:185-196 | a name that is no external's resolves after the write-back exactly as before |
| Stages.RecordExternalsAt | wasm-deploy/src/deployment.rs:185-196 | the j-th external ends registered with the j-th address and its own code id |
| Stages.AddrOf | wasm-deploy/src/config/config.rs:225-234 | a contract's address lookup: contract-not-found naming it when no entry has that name, address-not-found naming it when the entry has no address, otherwise the entry's address |
| Stages.Target | wasm-deploy/src/deployment.rs:212-216 | an execute target exists exactly when the contract's registered address exists and parses as an address, and it is that address |
| Stages.SetConfigPlanShape | wasm-deploy/src/deployment.rs:203-219 | SetConfig sends one execute request per contract with a set-config message, in order, to that contract's registered address, and succeeds exactly when every such contract has a usable address |
| Stages.SetUpPlanOrder | wasm-deploy/src/deployment.rs:237-255 | SetUp sends every set-up message of every contract, contract by contract and in message order, each to its contract's registered address, and succeeds exactly when every contract with set-up messages has a usable address |
| Stages.MigrateChecksAddrFirst | wasm-deploy/src/deployment.rs:276-300 | a contract without a migrate message adds nothing; with one, the checks come in the order contract-not-found, address-not-found, code-id-not-found |
| Stages.MigratePlanUsesRegisteredCodeId | wasm-deploy/src/deployment.rs:273-302 | a successful Migrate plan has one request per migrating contract, in order, each with its message, its registered address and its registered code id as the new code id |
| Stages.EmptyBatchRule | wasm-deploy/src/deployment.rs:45-317 | with no contracts every stage plans an empty batch; outside a dry run StoreCode, Instantiate and Migrate still send it while ExternalInstantiate, SetConfig and SetUp send nothing |
| Stages.WriteBackOnlyWhenRecording | wasm-deploy/src/deployment.rs:228-234 | a rejected batch is the stage's error; SetConfig, SetUp and Migrate leave the contract list untouched after a committed batch |
| Stages.RunSpec | wasm-deploy/src/deployment.rs:45-318 | a stage submits exactly when its plan succeeds and it is not a dry run (and, for the skipping stages, the batch is non-empty), submits exactly the planned batch, reports the plan's error, writes back only for the recording stages after a successful answer, and never writes after an error |
| Deployment.ActiveLookups | wasm-deploy/src/config/config.rs:225-244 | with an active environment, `get_contract` and `get_contract_addr` are the first-match lookups on the active environment's contract list |
| Deployment.StoreRequests | wasm-deploy/src/deployment.rs:47-62 | the StoreCode loop builds exactly the requests (or the first I/O error) that `StorePlan` describes |
| Deployment.PendingMessages | wasm-deploy/src/deployment.rs:94-104 | the message-collecting pass yields exactly `Pendings`: one (contract, message) pair per contract, or the first failing interactive prompt |
| Deployment.InstantiateRequests | wasm-deploy/src/deployment.rs:109-126 | the Instantiate loop builds exactly `InstantiatePlan` over the active contract list |
| Deployment.ExternalRequests | wasm-deploy/src/deployment.rs:151-166 | the nested ExternalInstantiate loop builds exactly `ExternalPlan` |
| Deployment.SetConfigRequests | wasm-deploy/src/deployment.rs:205-219 | the SetConfig loop builds exactly `SetConfigPlan` over the active contract list |
| Deployment.SetUpRequests | wasm-deploy/src/deployment.rs:239-255 | the SetUp loop builds exactly `SetUpPlan` over the active contract list |
| Deployment.ContractSetUpRequests | wasm-deploy/src/deployment.rs:240-254 | the inner SetUp loop over one contract's messages builds exactly that contract's part of the plan |
| Deployment.MigrateRequests | wasm-deploy/src/deployment.rs:275-302 | the Migrate loop builds exactly `MigratePlan` over the active contract list |
| Deployment.Preamble | wasm-deploy/src/deployment.rs:38-43 | the chain info error comes first, then the key error, then an RPC endpoint the client constructor rejects; success needs all three, and then an environment is active and the endpoint is the chain's |
| Deployment.ExecuteDeployment | wasm-deploy/src/deployment.rs:32-326 | a failing preamble is the result and nothing changes; otherwise the result, the batches sent, the registry's contract list and the saved registry are those of `RunSpec` for the active contract list; the preamble's outcome is unchanged afterwards |
| Deployment.RunStage | wasm-deploy/src/deployment.rs:45-318 | with the preamble resolved, one stage sends, writes and saves exactly as `RunSpec` says |
| Deployment.BuildBatch | wasm-deploy/src/deployment.rs:45-302 | the stage's batch is exactly its `Plan`; for Instantiate it also hands over `has_msg`, every element of which is registered |
| Deployment.WriteReply | wasm-deploy/src/deployment.rs:70-88 | a chain answer is written back as `WriteBack` says, into the active environment only, and saved exactly when a recording stage wrote |
| Deployment.InstantiablesRegistered | wasm-deploy/src/deployment.rs:140-143 | when the Instantiate plan succeeded, every contract of `has_msg` is registered, so the write-back's `get_contract_mut` cannot fail |
| Deployment.WriteCodeIds | wasm-deploy/src/deployment.rs:75-86 | the StoreCode write-back loop leaves the active list equal to `RecordCodeIds` and changes nothing else |
| Deployment.WriteAddresses | wasm-deploy/src/deployment.rs:140-143 | the Instantiate write-back loop leaves the active list equal to `RecordAddresses` and changes nothing else |
| Deployment.WriteExternals | wasm-deploy/src/deployment.rs:185-196 | the nested ExternalInstantiate write-back leaves the active list equal to `RecordExternals` over the owned externals and changes nothing else |
| Deployment.WriteOwnExternals | wasm-deploy/src/deployment.rs:187-195 | the inner write-back loop over one contract's externals advances the shared index by their number and extends the write-back to them |
| Chains.Collect | wasm-deploy/src/config/chain.rs:45-56 | collecting a version-0.1 chain list: the table's keys are exactly the chain ids in the list, and every entry is stored under its own chain id |
| Chains.Upgrade | wasm-deploy/src/config/chain.rs:40-61 | a version-0.6 table is kept as it is; a version-0.1 list becomes a table keyed by exactly its chain ids whose every entry is the conversion of some list element with that id |
| Chains.LastWithId | wasm-deploy/src/config/chain.rs:45-56 | when several elements share a chain id, the table holds the conversion of the last one of them |
| Chains.LaterOverwrites | wasm-deploy/src/config/chain.rs:45-56 | an element that no later element shares its id with is the one the table keeps for that id |
| Chains.DistinctIdsKeepEveryChain | wasm-deploy/src/config/chain.rs:45-56 | with pairwise distinct chain ids no chain is lost: the table has as many entries as the list |
| ChainClient.Chain.constructor | wasm-deploy/src/deployment.rs:43 | a fresh client has submitted nothing |
| ChainClient.Chain.Submit | wasm-deploy/src/deployment.rs:70-72 | a batch commit appends exactly that batch to the transactions sent and returns the chain's answer to it as the n-th transaction |
| Workspace.Layout | wasm-deploy/src/config/workspace_settings.rs:33-39 | the default layout: config file `.wasm-deploy/config.json`, `target`, `deployment` and `artifacts`, all under the workspace root |
| Workspace.New | wasm-deploy/src/config/workspace_settings.rs:26-40 | succeeds exactly when the root is absolute and not a file, with the default layout; a relative root and a file root fail with their own messages, the relative check first |
| Workspace.NewDerivesUnderRoot | wasm-deploy/src/config/workspace_settings.rs:26-40 | every path of a new workspace lies under its root, and the config path and the three directories are distinct |
| Workspace.SetConfigPath | wasm-deploy/src/config/workspace_settings.rs:43-53 | never fails; a directory gets `config.json` appended, any other path is kept as given; no other setting changes |
| Workspace.SetBuildDir | wasm-deploy/src/config/workspace_settings.rs:56-66 | succeeds exactly when the path is a directory, and then changes only the target directory; otherwise fails with the target-dir message |
| Workspace.SetDeploymentDir | wasm-deploy/src/config/workspace_settings.rs:69-79 | succeeds exactly when the path is a directory, and then changes only the deployment directory; otherwise fails with its message |
| Workspace.SetArtifactsDir | wasm-deploy/src/config/workspace_settings.rs:82-92 | succeeds exactly when the path is a directory, and then changes only the artifacts directory; otherwise fails with its message |
| Settings.New | wasm-deploy/src/settings.rs:17-30 | panics exactly when the root is relative; otherwise every path is the root followed by its fixed suffix |
| Settings.NewAgreesWithChecked | wasm-deploy/src/settings.rs:17-30 | for an absolute root that is not a file, this constructor and the checked one build the same settings |
| Settings.SetConfigPath | wasm-deploy/src/settings.rs:32-35 | stores the config path as given and changes nothing else |
| Settings.SetBuildDir | wasm-deploy/src/settings.rs:37-40 | stores the target directory as given and changes nothing else |
| Settings.SetDeploymentDir | wasm-deploy/src/settings.rs:42-45 | stores the deployment directory as given and changes nothing else |
| Settings.SetArtifactsDir | wasm-deploy/src/settings.rs:47-50 | stores the artifacts directory as given and changes nothing else |
| Settings.SettersDifferFromChecked | wasm-deploy/src/settings.rs:32-50 | the unchecked setters agree with the checked ones exactly when the path is a directory, except that a directory given as config path is kept here but gets `config.json` appended there |
| ContractDefaults.Boxed | wasm-deploy/src/contract.rs:129-140 | converting an external instantiation to the boxed message type keeps its code id and name and boxes its message |
| ContractDefaults.Describe | wasm-deploy/src/contract.rs:26-120 | the resolved contract keeps the display form and admin of the type, and its name and binary name are the trait's resolved `name` and `bin_name` |
| ContractDefaults.BareDefaults | wasm-deploy/src/contract.rs:26-120 | a type that overrides nothing: name and package id are its display form, the binary name is that in snake case, the path is `contracts/<name>`, every interactive method reports not-implemented, and there is no instantiate, migrate, set-config, set-up or external message |
| ContractDefaults.DefaultInstantiateMsg | wasm-deploy/src/contract.rs:29-33 | without an override, an instantiate message exists exactly when interactive `instantiate` succeeds, and it is the message that yields |
| ContractDefaults.NamesFollowName | wasm-deploy/src/contract.rs:61-85 | without overrides of `package_id` and `bin_name`, the package id is the name and the binary name is its snake case; without a `path` override, the path is `contracts/<name>` |
| CosmRs.FromTx | src/chain_res.rs:81-103 | a failed transaction phase is reported with its own code, data, log, gas wanted and gas used |
| CosmRs.FromQuery | src/chain_res.rs:105-115 | a failed query is reported with its code, value as data and log, and zero gas |
| CosmRs.SendTx | src/cosmrs.rs:100-109 | a broadcast transaction succeeds exactly when both its check and its deliver phase have the Ok code; a check failure is reported before a deliver failure, each as a chain error carrying that phase; a broadcast error passes through |
| CosmRs.AbciQuery | src/cosmrs.rs:116-122 | a query succeeds exactly when its code is Ok; otherwise it fails with a chain error carrying the response; a transport error passes through |
| CosmRs.FindEvent | src/cosmrs.rs:178-185 | finds an event exactly when some event of the delivered transaction has the given type, and then returns the first such event |
| DeriveContracts.ParsePair | wasm-deploy-derive/src/contracts.rs:213-231 | an item parses exactly when it is `key = value` with a known key and a value of that key's kind (an expression for `admin`, `rename`, `bin_name`, `path`; a path for the message keys); the pair keeps the key and value; an unknown key is the expected-one-of error; every failure is a parse error |
| DeriveContracts.OptionsFrom | wasm-deploy-derive/src/contracts.rs:262-305 | the collected pairs give options exactly when `admin` and `instantiate` are both present; otherwise the `unwrap` on a missing value panics |
| DeriveContracts.ParseOptions | wasm-deploy-derive/src/contracts.rs:258-306 | the imperative parse (collect into an ordered map, remove each known key in turn, panic on a left-over key) yields exactly the options of the last pair per key, or the first parse error, or the missing-key panic |
| DeriveContracts.KeyIndex | wasm-deploy-derive/src/contracts.rs:264-289 | the known keys in the order the parse removes them: a key is known exactly when it has an index, and the first four are the expression keys |
| DeriveContracts.KindsFollowKeys | wasm-deploy-derive/src/contracts.rs:213-231 | every parsed pair has a known key and a value of that key's kind |
| DeriveContracts.NothingLeft | wasm-deploy-derive/src/contracts.rs:291-293 | once every known key is removed the map is empty, so the unknown-option panic cannot fire |
| DeriveContracts.Removed | wasm-deploy-derive/src/contracts.rs:264-289 | removing a key from the map yields the value of the last pair with that key and leaves the map agreeing with the pairs on the remaining keys |
| DeriveContracts.TakeExpr | wasm-deploy-derive/src/contracts.rs:264-270 | removing an expression key and unwrapping it yields the last value given for it, and the rest of the map stays ordered and in agreement with the pairs |
| DeriveContracts.TakeType | wasm-deploy-derive/src/contracts.rs:272-289 | removing a message key and unwrapping it yields the last path given for it, and the rest of the map stays ordered and in agreement with the pairs |
| DeriveContracts.LastParsed | wasm-deploy-derive/src/contracts.rs:213-231 | the last value given for a key is an expression exactly when the key is an expression key, so neither `unwrap_expr` nor `unwrap_type` can panic |
| DeriveContracts.LastIndex | wasm-deploy-derive/src/contracts.rs:262 | the value the map keeps for a key comes from some pair with that key |
| DeriveContracts.FieldOf | wasm-deploy-derive/src/contracts.rs:295-305 | each option field holds the last value given for its key, and an unknown key has no field |
| DeriveContracts.ParsedSnoc | wasm-deploy-derive/src/contracts.rs:260 | parsing one more item that parses appends exactly its pair to the parsed pairs |
| DeriveContracts.LaterPairWins | wasm-deploy-derive/src/contracts.rs:260-305 | appending a valid `key = value` item sets that option to the new value and leaves every other option unchanged |
| DeriveContracts.KeyGiven | wasm-deploy-derive/src/contracts.rs:260-262 | a key has a value in the map exactly when some item gives it |
| DeriveContracts.MandatoryKeys | wasm-deploy-derive/src/contracts.rs:270-275 | when every item parses, the options parse exactly when both `admin` and `instantiate` are given |
| DeriveContracts.ContractOf | wasm-deploy-derive/src/contracts.rs:16-47 | a variant without a `contract` attribute panics with the missing-attribute message; otherwise the first such attribute's options decide, and the contract keeps the variant's name and is named by `rename` or else by the kebab case of the variant name; every failure is a panic |
| DeriveContracts.GetContracts | wasm-deploy-derive/src/contracts.rs:12-50 | succeeds exactly when every variant yields a contract, with one contract per variant in order; otherwise it panics |
| DeriveContracts.GenerateMatch | wasm-deploy-derive/src/contracts.rs:52-79 | the match is on `&self` and has one arm per contract, in order, naming that contract's variant with the generated expression |
| DeriveContracts.Dispatch | wasm-deploy-derive/src/contracts.rs:52-79 | a value dispatches to an arm exactly when some arm names its variant |
| DeriveContracts.DispatchGenerated | wasm-deploy-derive/src/contracts.rs:52-79 | with distinct variant names, the generated match sends each contract's variant to that contract's expression |
| DeriveContracts.CallGenerated | wasm-deploy-derive/src/contracts.rs:81-186 | with distinct variant names, calling a generated method on a variant runs the body generated for its contract |
| DeriveContracts.GeneratedStrings | wasm-deploy-derive/src/contracts.rs:82-104 | the generated `name` returns the contract name; `bin_name` returns the given binary name or else the name; `path` returns the given path or else `contracts/<name>`; `admin` returns the admin expression |
| DeriveContracts.RunMsgBody | wasm-deploy-derive/src/contracts.rs:111-153 | a generated message method parses the given message type interactively, and without one bails with its not-implemented message |
| DeriveContracts.GeneratedMessages | wasm-deploy-derive/src/contracts.rs:106-153 | the generated `instantiate` parses the instantiate type; `execute`, `query`, `migrate` and `cw20_send` parse their type when given and otherwise bail with their own not-implemented message |
| DeriveContractsOld.ParseValue | wasm-deploy-derive/src/contracts_old.rs:188-196 | a value is a path whenever the text parses as one; only otherwise a string literal, and it fails with a parse error when it is neither |
| DeriveContractsOld.ParsePair | wasm-deploy-derive/src/contracts_old.rs:200-208 | an item parses exactly when it is `key: value` with a value that parses, and then keeps the key and that value; every failure is a parse error |
| DeriveContractsOld.KeyIndex | wasm-deploy-derive/src/contracts_old.rs:251-272 | the known keys in the order the parse removes them: a key is known exactly when it has an index |
| DeriveContractsOld.Unknown | wasm-deploy-derive/src/contracts_old.rs:274-276 | the keys left over are exactly the unknown keys some pair gives |
| DeriveContractsOld.Mandatory | wasm-deploy-derive/src/contracts_old.rs:251-258 | the mandatory options succeed exactly when `name` is given as a string literal, `admin` is given, and `instantiate` is given as a path; otherwise a panic |
| DeriveContractsOld.OptionalTypes | wasm-deploy-derive/src/contracts_old.rs:260-272 | the optional message types panic with expected-a-type exactly when one of them is given as a string literal |
| DeriveContractsOld.Unwrapped | wasm-deploy-derive/src/contracts_old.rs:260-272 | unwrapping four optional values panics exactly when one of them is a string literal, and otherwise keeps which of them are present |
| DeriveContractsOld.ParseOptions | wasm-deploy-derive/src/contracts_old.rs:246-288 | the imperative parse (collect into an ordered map, remove the known keys in turn, panic on the first left-over key) yields exactly the first parse error, else the mandatory-key panics, else the optional-key panic, else the least unknown key's panic, else the options of the last pair per key |
| DeriveContractsOld.TakeMandatory | wasm-deploy-derive/src/contracts_old.rs:251-258 | removing `name`, `admin` and `instantiate` from the map gives the mandatory options of the pairs, and the rest agrees with the pairs on the other keys |
| DeriveContractsOld.TakeOptional | wasm-deploy-derive/src/contracts_old.rs:260-272 | removing the four optional keys gives the optional types of the pairs, and the rest holds only unknown keys |
| DeriveContractsOld.Take | wasm-deploy-derive/src/contracts_old.rs:251-272 | removing one known key yields the last value given for it and keeps the rest ordered and in agreement with the pairs |
| DeriveContractsOld.LeftOver | wasm-deploy-derive/src/contracts_old.rs:274-276 | after the known keys are removed, the map is non-empty exactly when an unknown key was given, and its first entry is the least such key |
| DeriveContractsOld.ParseBraced | wasm-deploy-derive/src/contracts_old.rs:227-234 | an item that is not in curly braces is a parse error; a braced one parses as the options inside it |
| DeriveContractsOld.ParseContracts | wasm-deploy-derive/src/contracts_old.rs:212-223 | a bare option set that parses gives exactly one contract, and a panic in it is final; a successful parse never gives an empty list |
| DeriveContractsOld.EmptyInput | wasm-deploy-derive/src/contracts_old.rs:212-223 | an empty attribute panics on the missing `name` rather than giving an empty list |
| DeriveContractsOld.BracedList | wasm-deploy-derive/src/contracts_old.rs:213-222 | a non-empty list of braced option sets parses exactly when each set does, and then gives one contract per set, in order |
| DeriveContractsOld.InvalidOptionTest | wasm-deploy-derive/src/contracts_old.rs:295-302 | the unit test's input panics on the missing `name` before the unknown option `asd` is looked at |
| DeriveContractsOld.InvalidOptionCompleted | wasm-deploy-derive/src/contracts_old.rs:295-302 | with `name` and `admin` added, the same input panics with the unknown-option message for `asd` that the test expects |
| DeriveContractsOld.CompletedPairs | wasm-deploy-derive/src/contracts_old.rs:274-276 | the parsed pairs of the completed input reach the unknown-option panic for `asd` |
| DeriveContractsOld.GenerateEnum | wasm-deploy-derive/src/contracts_old.rs:15-45 | `Ident::new` panics exactly when some set's UpperCamel `name` is not an identifier; otherwise the generated `Contracts` enum has the fixed derives and snake-case serialization, and one unit variant per option set, in order, named by the UpperCamel form of its `name` |
| DeriveContractsOld.GenerateMatch | wasm-deploy-derive/src/contracts_old.rs:47-77 | `Ident::new` panics exactly when some set's UpperCamel `name` is not an identifier; otherwise the match is on `&self` and has one arm per option set, in order, naming the UpperCamel form of its `name` with the generated expression |
| DeriveContractsOld.MatchCoversEnum | wasm-deploy-derive/src/contracts_old.rs:15-77 | the enum and a match over the same option sets panic together, and every variant of the generated enum has an arm in the generated match |
| Wrappers.OkOr | wasm-deploy/src/file.rs:150-154 | `ok_or`: a present value becomes success with that value, an absent one the given error |
| Types.Join | wasm-deploy/src/config/workspace_settings.rs:35-38 | joining keeps whether the path is absolute, and the result is the base path's parts followed by exactly the relative parts |
| Types.DefaultUserSettings | wasm-deploy/src/file.rs:73-80 | the default store-code chunk size is 2 |
| Types.Select | wasm-deploy/src/config/config.rs:330-334 | a selection prompt succeeds exactly when the answer is one of the options, with that answer; otherwise the prompt fails |
| Seqs.Position | wasm-deploy/src/config/config.rs:79 | `iter().position`: the index of the first element satisfying the predicate, or none when no element does |
| Seqs.PositionAlike | wasm-deploy/src/config/config.rs:79 | searching two equally long sequences with predicates that agree index by index finds the same position |
| Seqs.Find | wasm-deploy/src/file.rs:141 | `iter().find`: finds a value exactly when some element satisfies the predicate, and the value is the first such element |
| Seqs.Retain | wasm-deploy/src/commands.rs:176 | `retain`: no longer than before, keeps only elements that pass, and keeps every element that passes |
| Seqs.RetainStep | wasm-deploy/src/commands.rs:176 | retaining from a prefix one element longer appends that element exactly when it passes |
| Seqs.RetainIsSubsequence | wasm-deploy/src/commands.rs:176 | two kept elements stay in their original order |
| Seqs.RetainRetain | wasm-deploy/src/commands.rs:176 | retaining twice is retaining once with both conditions |
| Seqs.RetainAll | wasm-deploy/src/commands.rs:176 | retaining elements that all pass changes nothing |
| Seqs.RetainPairwise | wasm-deploy/src/commands.rs:176 | a relation holding between every ordered pair of elements still holds after retaining |
| Seqs.TryFlatMap | wasm-deploy/src/deployment.rs:47-62 | a loop that pushes each element's requests and stops at the first `?` error: succeeds exactly when every element succeeds; otherwise fails with the first element's error |
| Seqs.TryFlatMapStep | wasm-deploy/src/deployment.rs:47-62 | one more loop turn appends that element's requests, or ends with its error |
| Seqs.TryFlatMapErrPrefix | wasm-deploy/src/deployment.rs:47-62 | once a prefix of the loop fails, the whole loop fails with that error |
| Seqs.TryFlatMapSingles | wasm-deploy/src/deployment.rs:47-62 | when each element pushes exactly one request, the requests are those, one per element, in order |
| Seqs.TryFlatMapKeep | wasm-deploy/src/deployment.rs:91-134 | when each element pushes one request or none, the requests are one per kept element, in order |
| Seqs.TryFlatMapAllEmpty | wasm-deploy/src/deployment.rs:47-62 | when no element pushes anything, the loop yields no requests |
| Seqs.TryFlatMapPairs | wasm-deploy/src/deployment.rs:149-166 | a nested loop over each element's items pushes one request per (element, item) pair, in order |
| Seqs.PairsMember | wasm-deploy/src/deployment.rs:151-152 | every pair of the nested loop is an element with one of its own items |
| Seqs.PairsAt | wasm-deploy/src/deployment.rs:151-152 | the pairs of one element follow those of the elements before it |
| Seqs.PairsPrefix | wasm-deploy/src/deployment.rs:151-152 | the pairs of a prefix of the elements are a prefix of all the pairs |
| Tokens.EachInTurn | wasm-deploy-derive/src/contracts.rs:260 | `parse_terminated`: succeeds exactly when no item fails, with one result per item in order; otherwise with the error of the first failing item |
| Tokens.Failing | wasm-deploy-derive/src/contracts.rs:260 | the first item that does not parse: every item before it parses, and none is found only when every item parses |
| OrderedMap.LessIrreflexive | wasm-deploy-derive/src/contracts.rs:262 | the key order of the `BTreeMap` is irreflexive |
| OrderedMap.LessTransitive | wasm-deploy-derive/src/contracts.rs:262 | the key order is transitive |
| OrderedMap.LessTotal | wasm-deploy-derive/src/contracts.rs:262 | the key order is total and asymmetric on distinct keys |
| OrderedMap.Get | wasm-deploy-derive/src/contracts.rs:264 | a lookup finds a value exactly when some entry has the key |
| OrderedMap.GetAt | wasm-deploy-derive/src/contracts.rs:264 | in an ordered map a lookup finds each entry's own value |
| OrderedMap.Insert | wasm-deploy-derive/src/contracts.rs:262 | insertion keeps the map ordered, maps the key to the new value, leaves every other key's value as it was, and adds no other key |
| OrderedMap.Remove | wasm-deploy-derive/src/contracts.rs:264-289 | `remove` returns the key's value if any, leaves the map ordered without the key, one entry shorter exactly when the key was present, with every other key as it was |
| OrderedMap.Last | wasm-deploy-derive/src/contracts.rs:262 | a key has a last value among the pairs exactly when some pair has that key |
| OrderedMap.LastAt | wasm-deploy-derive/src/contracts.rs:262 | a pair with no later pair of the same key gives that key's last value |
| OrderedMap.Collect | wasm-deploy-derive/src/contracts.rs:262 | collecting pairs into the map gives an ordered map holding, for each key, the value of the last pair with that key |
| OrderedMap.FirstIsLeast | wasm-deploy-derive/src/contracts_old.rs:274 | the first entry of an ordered map has the least key in it |
| OrderedMap.Least | wasm-deploy-derive/src/contracts_old.rs:274 | the least of a non-empty list of keys is one of them and below every other |
| OrderedMap.LeastUnique | wasm-deploy-derive/src/contracts_old.rs:274 | the least key is unique |
| LegacyCommands.Resolve | src/contract.rs:29-30 | the shared look-up of the active environment, chain, client and contract entry: on success it points at an entry of the active environment whose name is the contract's display form; with an active environment the environments are left as they are |
| LegacyCommands.StoreRun | src/contract.rs:26-57 | `execute_store` succeeds only by reading `./artifacts/<name>.wasm`, submitting exactly one store batch with its bytes and saving the registry; a failure saves nothing and submits at most one batch |
| LegacyCommands.StoreUploaded | src/contract.rs:31-47 | the upload and record part of `execute_store` leaves the chain table alone and has the same success and failure shape as the whole command |
| LegacyCommands.ExecuteStore | src/contract.rs:26-57 | the command's result, chains, environments, submitted batches and saved snapshot are exactly those of the store specification on the old state |
| LegacyCommands.StoreUpload | src/contract.rs:31-47 | after the chain is resolved, the rest of the store command behaves as its specification |
| LegacyCommands.StoreRecord | src/contract.rs:36-45 | recording a code id gives exactly the environments the recording specification gives |
| LegacyCommands.InstantiateRun | src/contract.rs:59-103 | `execute_instantiate` saves only when it succeeds, and succeeds only with one instantiate batch for the contract followed by one per external contract; the first batch and the recorded address are stated by `InstantiateRecordsAddress` |
| LegacyCommands.LocatedRun | src/contract.rs:63-103 | once the message is rewritten, the remaining command saves only on success and then has submitted one batch for the contract and one per external, the first of which `InstantiateRecordsAddress` pins down |
| LegacyCommands.OwnerRun | src/contract.rs:68-103 | once the entry is found, the remaining command keeps the chain table, saves only on success, and then has submitted one batch for the contract and one per external; `OwnerRecordsAddress` states that batch and the address written onto the entry |
| LegacyCommands.ExternalsSaved | src/contract.rs:81-101 | the externals loop followed by the save keeps the chain table and what was submitted before, saves only on success, and then has submitted one batch per external |
| LegacyCommands.ExternalTurn | src/contract.rs:82-92 | one external turn never saves, submits at most one batch (exactly one on success), and any batch it submits instantiates that external with the contract's admin |
| LegacyCommands.ExternalsRun | src/contract.rs:81-100 | the externals loop never saves, keeps what was submitted before, submits at most one batch per external, and exactly one per external on success |
| LegacyCommands.MigrateRun | src/contract.rs:106-128 | `execute_migrate` never saves and submits at most one batch; with an active environment the environments are unchanged |
| LegacyCommands.MigrateEntry | src/contract.rs:115-118 | a missing address fails with address-not-found, then a missing code id with code-id-not-found; success submits exactly one migrate batch to the entry's address and code id |
| LegacyCommands.SetConfigRun | src/contract.rs:131-151 | `execute_set_config` never saves and submits at most one batch; with an active environment the environments are unchanged |
| LegacyCommands.SetConfigEntry | src/contract.rs:139-141 | an entry without an address fails with no-address; success submits exactly one execute batch of the message to the entry's address |
| LegacyCommands.SetUpRun | src/contract.rs:153-173 | `execute_set_up` never saves; on success it has submitted one execute batch per set-up message; with an active environment the environments are unchanged |
| LegacyCommands.SetUpTurn | src/contract.rs:161-163 | one set-up turn submits at most one batch (exactly one on success), which executes the rewritten message on the contract's address |
| LegacyCommands.SetUpMsgsRun | src/contract.rs:160-171 | the set-up loop keeps what was submitted before and submits at most one batch per message, exactly one per message on success |
| LegacyCommands.ExecuteInstantiate | src/contract.rs:59-103 | the command's result, chains, environments, submitted batches and saved snapshot are exactly those of the instantiate specification on the old state, which `InstantiateRecordsAddress` characterises: one instantiation of the registered code id with the rewritten message and the admin, and the answered address set on the entry |
| LegacyCommands.Locate | src/contract.rs:63-68 | the imperative look-up yields exactly the resolution of the specification, including the registry edits an interactive environment choice makes |
| LegacyCommands.InstantiateLocated | src/contract.rs:63-103 | after the message is built, the rest of the command behaves as its specification, so it sends the instantiation and records the address as `InstantiateRecordsAddress` states |
| LegacyCommands.InstantiateOwner | src/contract.rs:68-103 | after the entry is found, the rest of the command behaves as its specification, so it sends the instantiation and records the address as `OwnerRecordsAddress` states |
| LegacyCommands.InstantiateSubmit | src/contract.rs:69-103 | the submission of the contract's instantiation and what follows behave as the specification: the batch and the address write that `OwnerRecordsAddress` states |
| LegacyCommands.InstantiateExternals | src/contract.rs:81-101 | the externals loop and the save behave as their specification, appending only the new batches |
| LegacyCommands.EachExternal | src/contract.rs:81-100 | the loop over external contracts gives exactly the environments, result and batches of the loop specification |
| LegacyCommands.InstantiateExternal | src/contract.rs:81-100 | one loop step: a failure ends the loop with the step's state, a success leaves the rest of the loop to do the rest |
| LegacyCommands.ExternalOnce | src/contract.rs:82-92 | one external instantiation gives exactly the result, environments and batches of one turn of the specification |
| LegacyCommands.ExecuteMigrate | src/contract.rs:106-128 | the command's result, chains, environments and submitted batches are exactly those of the migrate specification on the old state |
| LegacyCommands.MigrateOnce | src/contract.rs:115-118 | the migration of a located entry behaves as its specification |
| LegacyCommands.ExecuteSetConfig | src/contract.rs:131-151 | the command's result, chains, environments and submitted batches are exactly those of the set-config specification on the old state |
| LegacyCommands.SetConfigOnce | src/contract.rs:139-141 | the execution on a located entry behaves as its specification |
| LegacyCommands.ExecuteSetUp | src/contract.rs:153-173 | the command's result, chains, environments and submitted batches are exactly those of the set-up specification on the old state |
| LegacyCommands.SetUpMessages | src/contract.rs:160-171 | the loop over set-up messages behaves as the loop specification |
| LegacyCommands.SetUpMessage | src/contract.rs:161-163 | one set-up message behaves as one turn of the specification |
| LegacyCommandFacts.SameFlagsSameActive | src/file.rs:123-128 | environments with the same active flags have the same active environment |
| LegacyCommandFacts.SameNameSameLookup | src/file.rs:214-217 | replacing an entry found by name with one of the same name makes the look-up find the replacement |
| LegacyCommandFacts.StoreRecordsCodeId | src/contract.rs:36-45 | storing code touches only the active environment: an existing entry gets the new code id and keeps the rest; a missing one is added with the contract's name, no address and the code id |
| LegacyCommandFacts.OwnerRecordsAddress | src/contract.rs:68-73 | once the entry is found, a successful instantiate has a code id on the entry, sends first one instantiation of that code id with the message, the label and `Some(admin)`, and, unless an external reuses the name, leaves the entry found by name with the answered address and its other fields |
| LegacyCommandFacts.EntrySetLookup | src/contract.rs:73 | assigning through the reference to the first entry of a name makes a lookup by that name find the assigned entry |
| LegacyCommandFacts.InstantiateRecordsAddress | src/contract.rs:59-73 | a successful `execute_instantiate` found an active environment with a registered entry that has a code id; its first transaction instantiates that code id with the substituted message, the label and `Some(admin)`; unless an external reuses the name, the entry then holds the answered address with its other fields kept |
| LegacyCommandFacts.ExternalTurnRegisters | src/contract.rs:86-92 | a successful external turn registers the external under its name with the first address the chain answered and its code id, keeps the active environment, and leaves every other name's entry as it was |
| LegacyCommandFacts.ExternalsKeepOthers | src/contract.rs:81-100 | a successful externals loop leaves the entry of any name no external has as it was |
| LegacyCommandFacts.MigrateSendsInstantiateMsg | src/contract.rs:109-118 | the one batch a migration sends carries the contract's rewritten instantiate message, to the entry's address and code id, as the legacy contract trait has no migrate message |
| WasmMsg.Preamble | src/wasm_msg.rs:33-40 | the stage engine's preamble: the active chain's failure first, then the active key's, then a chain without a gRPC endpoint fails with missing-gRPC; success yields the chain and key, with an active environment and an endpoint |
| WasmMsg.StorePlanReadsEveryArtifact | src/wasm_msg.rs:52-61 | the store requests are built exactly when every contract's `./artifacts/<name>.wasm` exists, one request per contract with its bytes, in order; otherwise the first missing file's read error |
| WasmMsg.RecordCodeId | src/wasm_msg.rs:65-73 | recording a code id keeps every existing entry's name in place and adds at most at the end |
| WasmMsg.RecordCodeIds | src/wasm_msg.rs:64-75 | recording the code ids of a batch keeps every existing entry's name in place |
| WasmMsg.RecordCodeIdLookup | src/wasm_msg.rs:65-73 | after recording, the contract's entry has its code id and keeps any address it had, and every other name's entry is unchanged |
| WasmMsg.RecordCodeIdsPositional | src/wasm_msg.rs:64-75 | with distinct contract names (each equal to its display form), the i-th contract gets the i-th code id of the reply, and names outside the batch are untouched |
| WasmMsg.RecordCodeIdsElsewhere | src/wasm_msg.rs:64-75 | a name no contract of the batch has keeps its entry |
| WasmMsg.RecordCodeIdsAt | src/wasm_msg.rs:64-75 | with distinct contract names (each equal to its display form), contract i's entry carries code id i and keeps any address it had |
| WasmMsg.InstantiatePlanCoversAll | src/wasm_msg.rs:86-99 | the instantiate requests are built exactly when every contract can be instantiated, one per contract in order, with its stored code id, its rewritten message, its name as label and its admin |
| WasmMsg.RecordAddress | src/wasm_msg.rs:103-106 | recording an address keeps the registry's length and every entry's name |
| WasmMsg.RecordAddresses | src/wasm_msg.rs:103-106 | recording the batch's addresses keeps the registry's length and every entry's name |
| WasmMsg.RecordAddressLookup | src/wasm_msg.rs:103-106 | the contract's existing entry gets the address and keeps the rest; every other name's entry is unchanged |
| WasmMsg.RecordAddressesPositional | src/wasm_msg.rs:103-106 | with distinct contracts that all have entries, the i-th contract gets the i-th address of the reply, and names outside the batch are untouched |
| WasmMsg.RecordAddressesElsewhere | src/wasm_msg.rs:103-106 | a name no contract of the batch has keeps its entry |
| WasmMsg.RecordAddressesAt | src/wasm_msg.rs:103-106 | with distinct contracts, contract i's existing entry gets address i |
| WasmMsg.ExternalPlanOrder | src/wasm_msg.rs:117-129 | when every external can be built, there is one request per (contract, external) pair, contracts in order and each contract's externals in order |
| WasmMsg.RecordExternalsAt | src/wasm_msg.rs:133-143 | an external whose name no later external repeats is registered under that name with the j-th address of the reply and its code id |
| WasmMsg.RecordExternalsElsewhere | src/wasm_msg.rs:133-143 | a name no external has keeps its entry |
| WasmMsg.Target | src/wasm_msg.rs:153-157 | the address a message goes to: contract-not-found when there is no entry, no-address when the entry has none; it succeeds exactly when the stored address parses, with that address |
| WasmMsg.SetConfigPlanShape | src/wasm_msg.rs:148-163 | the set-config stage ends quietly exactly when some contract has no config message and every contract before it is configurable; it sends exactly when every contract is configurable, one request per contract in order |
| WasmMsg.SetConfigPlanStops | src/wasm_msg.rs:151 | a contract without a config message ends the whole stage successfully, with no transaction, once the contracts before it are fine |
| WasmMsg.SetConfigPlanSends | src/wasm_msg.rs:148-159 | a batch is built exactly when every contract is configurable, with one request per contract in order |
| WasmMsg.SetUpPlanOrder | src/wasm_msg.rs:166-179 | when every message can be rewritten and addressed, there is one request per (contract, set-up message) pair, in order |
| WasmMsg.MigrateChecksAddrFirst | src/wasm_msg.rs:191-199 | a found entry without an address fails with address-not-found naming the contract, before the code id is looked at |
| WasmMsg.MigratePlanSkipsSilent | src/wasm_msg.rs:186-206 | contracts without a migrate message are skipped: there is one request per contract that has one, in order, with its rewritten message, stored address and code id |
| WasmMsg.RunSpecSubmitsOnce | src/wasm_msg.rs:50-212 | a stage whose requests fail submits nothing; a set-config stage that stops early succeeds without a transaction; otherwise exactly the planned batch is submitted, and only the store and instantiate stages write the registry, and only on success |
| WasmMsg.SetUpSubmitsEmpty | src/wasm_msg.rs:165-183 | a set-up stage with no messages still submits an empty execute batch |
| WasmMsg.MsgContract | src/wasm_msg.rs:29-223 | `msg_contract`: a failing preamble submits nothing and saves nothing; otherwise the result, the batch submitted, the environments written and the snapshot saved are exactly those of the stage specification |
| WasmMsg.Prepare | src/wasm_msg.rs:33-40 | the imperative preamble gives exactly the preamble specification's result and registry |
| WasmMsg.RunStage | src/wasm_msg.rs:50-212 | running one stage gives exactly the stage specification's result, batch, environments and snapshot |
| WasmMsg.BuildBatch | src/wasm_msg.rs:50-211 | the request loops build exactly the planned batch |
| WasmMsg.WriteReply | src/wasm_msg.rs:64-144 | writing the chain's reply back gives exactly the specified new entries |
| WasmMsg.StoreRequests | src/wasm_msg.rs:52-61 | the store loop builds exactly the store plan |
| WasmMsg.InstantiateRequests | src/wasm_msg.rs:86-99 | the instantiate loop builds exactly the instantiate plan |
| WasmMsg.ExternalRequests | src/wasm_msg.rs:117-129 | the nested externals loop builds exactly the externals plan |
| WasmMsg.OwnerRequests | src/wasm_msg.rs:118-128 | the inner loop over one contract's externals builds exactly that contract's requests |
| WasmMsg.SetConfigRequests | src/wasm_msg.rs:148-159 | the set-config loop, with its early return, builds exactly the set-config plan |
| WasmMsg.SetUpRequests | src/wasm_msg.rs:166-179 | the nested set-up loop builds exactly the set-up plan |
| WasmMsg.ContractSetUpRequests | src/wasm_msg.rs:169-178 | the inner loop over one contract's set-up messages builds exactly its requests |
| WasmMsg.MigrateRequests | src/wasm_msg.rs:186-206 | the migrate loop builds exactly the migrate plan |
| WasmMsg.WriteCodeIds | src/wasm_msg.rs:64-75 | the write-back loop records exactly the specified code ids |
| WasmMsg.WriteAddresses | src/wasm_msg.rs:103-106 | the write-back loop records exactly the specified addresses |
| WasmMsg.WriteExternals | src/wasm_msg.rs:133-143 | the nested write-back loop registers exactly the externals with the addresses in reply order |
| WasmMsg.WriteOwnExternals | src/wasm_msg.rs:135-142 | the inner loop registers one contract's externals and advances the running index by their number |

## Left out

- Building, optimizing and compressing contracts, schema generation, shell completions and `update`: they run external processes.
- The network clients (the RPC and gRPC clients, the compat-mode client cache, queries, executes, cw20 and custom messages): the chain is an abstract answer function.
- Keys and cryptography (mnemonics, keyring, ledger, address derivation, signing), including the ledger connection `get_active_key` opens and the `key --show` listing.
- Floating-point gas prices, gas adjustment and fee simulation.
- Reading and writing the registry as JSON: `save` is a snapshot, and a failing load or save is not modelled.
- The process-wide `CONFIG` and `WORKSPACE_SETTINGS` locks: the registry and the settings are passed explicitly.
- The command-line definitions, all printing and colouring, and the dry-run JSON output.
- The interactive `add_chain`, `add_key` and `add_contract` prompts, and `set_shell_completion_dir`: only the `add_*_from` operations they end in are modelled. The `env --id` and plain `env` branches only print.
- Prompt answers are parameters. A prompt the user cancels is the error of a selection whose answer is not among the options.
- The text of `syn` parse errors, the debug rendering printed after an `unwrap` panic, and the rejected string in the `Ident::new` panic: each is a fixed message. Whether a string is an identifier (`Ident::new`) or a Tendermint chain id (`chain::Id`) is decided by foreign code, so each is a parameter.
- `generate_impl` of wasm-deploy-derive/src/contracts_old.rs. It has the same shape as the newer `generate_impl`, which is modelled, without the `name`, `bin_name` and `path` methods.
- DeriveContractsOld.ParseContracts: the fallback from a bare option set to a braced list assumes the token cursor does not roll back. A failed bare parse is modelled as resuming the braced parse from the item where it failed.
- CosmRs.FromTx: the gas fields are copied as unbounded integers. The panic of the `i64` to `u64` conversion on a negative gas value is not modelled.
- Commands.StoreCodeCommand: a zero chunk size is a panic; the process abort that follows is modelled as an error result.
- The `ChainVersions` upgrade is not wired into deserialization (the `serde(from)` attribute is commented out). Only the conversion is modelled.
- LegacyRegistry.LegacyChain: `grpc_endpoint` is optional, as src/wasm_msg.rs:38 reads it, although src/file.rs:53 declares it a plain string (the two disagree). WasmMsg.Preamble's missing-gRPC failure exists only under that reading; with the declared string it could not occur.
- Response wrappers other than `ChainResponse`, and the proto message types: they are field-by-field copies of library types.

## Findings

| source | as written | input that shows it | evidently intended | confidence | as-written member | corrected member |
|---|---|---|---|---|---|---|
| wasm-deploy/src/commands.rs:259 | `deploy` calls `instantiate(settings, contracts, dry_run, false)`, but the signature at wasm-deploy/src/commands.rs:585-590 is `(interactive, dry_run)`. The dry-run flag becomes the interactive flag, and instantiation is never a dry run | `deploy` with `dry_run = true`, `no_build = true` and no contracts: the model submits an `InstantiateBatch([])` to the chain (`Commands.DeployDryRunSubmits`) | `instantiate(settings, contracts, false, dry_run)`, so that a dry-run deploy sends no transaction (`Commands.DeployIntendedDryRun`) | not executed | Commands.Deploy | Commands.DeployIntended |
| wasm-deploy-derive/src/contracts_old.rs:295-302 | the unit test `invalid_option` expects the panic "unknown generate_api option: asd", but `Options::parse` unwraps `name` first (line 251), so its input panics on the missing `name` instead. The file is not compiled into the crate (wasm-deploy-derive/src/lib.rs:6 declares only `mod contracts`), so the test does not run either | `instantiate: InstantiateMsg, asd: Asd`: the parse ends in the `Option::unwrap` panic (`DeriveContractsOld.InvalidOptionTest`) | an input that supplies `name` and `admin`, so that the left-over `asd` is what panics (`DeriveContractsOld.InvalidOptionCompleted`) | not executed | DeriveContractsOld.InvalidOptionTest | DeriveContractsOld.InvalidOptionCompleted |
