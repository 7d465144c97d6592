/**
 * The stage-sequencing commands of wasm-deploy/src/commands.rs: `store_code`
 * runs StoreCode chunk by chunk, `instantiate` runs Instantiate and then
 * ExternalInstantiate, `migrate` optionally builds and stores before
 * Migrate, and `deploy` chains build, store, instantiate, set-config and
 * set-up. Every command stops at the first failing stage.
 *
 * A run of several stages is described by a `Progress`: the result so far,
 * the active contract list, the batches sent and whether anything was
 * written back (and hence saved). The methods are proved against the
 * functions that compute it; the build step, a subprocess, is a parameter
 * holding its outcome.
 */
module Commands {
  import opened Wrappers
  import opened Types
  import opened Environments
  import opened Registry
  import opened Workspace
  import opened ContractDefaults
  import opened ChainClient
  import opened Stages
  import opened Deployment

  // ----- Chunks -----

  /** `<[T]>::chunks(n)`: consecutive pieces of length n, the last one possibly shorter. */
  function Chunks<T>(xs: seq<T>, n: nat): (r: seq<seq<T>>)
    requires n > 0
    ensures forall k :: 0 <= k < |r| ==> 0 < |r[k]| <= n
    decreases |xs|
  {
    if |xs| == 0 then []
    else if |xs| <= n then [xs]
    else [xs[..n]] + Chunks(xs[n..], n)
  }

  /** The pieces concatenated in order. */
  function Flatten<T>(xss: seq<seq<T>>): seq<T>
    decreases |xss|
  {
    if |xss| == 0 then [] else xss[0] + Flatten(xss[1..])
  }

  /**
   * The chunks put back together are the input, and every chunk but the last
   * has exactly n elements.
   */
  lemma {:induction false} ChunksPartition<T>(xs: seq<T>, n: nat)
    requires n > 0
    ensures Flatten(Chunks(xs, n)) == xs
    ensures forall k :: 0 <= k < |Chunks(xs, n)| - 1 ==> |Chunks(xs, n)[k]| == n
    decreases |xs|
  {
    if |xs| == 0 {
    } else if |xs| <= n {
      assert Flatten(Chunks(xs, n)) == xs + Flatten([]);
    } else {
      var rest := Chunks(xs[n..], n);
      ChunksPartition(xs[n..], n);
      assert Chunks(xs, n)[1..] == rest;
      assert xs[..n] + xs[n..] == xs;
    }
  }

  // ----- Runs of several stages -----

  /** What a sequence of stages has done so far. */
  datatype Progress = Progress(result: Result<(), DeployError>, entries: seq<ContractInfo>, sent: seq<Batch>, wrote: bool)

  /** Nothing done yet, with the active contract list as it is. */
  function Start(entries: seq<ContractInfo>): Progress {
    Progress(Ok(()), entries, [], false)
  }

  /** Where a run started: the registry, the last saved registry, the batches already sent, and the preamble's outcome. */
  datatype Origin = Origin(envs: seq<Env>, saved: Snapshot, sent: seq<Batch>, pre: Result<(ChainInfo, UserKey), DeployError>)

  /**
   * One more `execute_deployment`: nothing happens after an error; a failing
   * preamble is the stage's error; otherwise the stage runs as `RunSpec`
   * says, against the contract list so far and numbering its batch after the
   * ones already sent.
   */
  function Then(p: Progress, pre: Result<(ChainInfo, UserKey), DeployError>, stage: DeploymentStage,
                ws: WorkspaceSettings, fs: FileSystem, isAddress: string -> bool, cs: seq<Contract>,
                dryRun: bool, n0: nat, answer: (nat, Batch) -> Reply): (q: Progress)
    ensures p.result.Err? ==> q == p
    ensures |p.sent| <= |q.sent| <= |p.sent| + 1 && q.sent[..|p.sent|] == p.sent
    ensures p.wrote ==> q.wrote
    ensures dryRun ==> q.sent == p.sent && q.wrote == p.wrote && q.entries == p.entries
    ensures q.wrote != p.wrote ==> Records(stage)
  {
    Continue(p, pre, RunSpec(stage, p.entries, ws, fs, isAddress, cs, dryRun, n0 + |p.sent|, answer))
  }

  /** What a run of one stage adds to the progress so far. */
  function Continue(p: Progress, pre: Result<(ChainInfo, UserKey), DeployError>, run: StageRun): (q: Progress)
    ensures |p.sent| <= |q.sent| <= |p.sent| + 1 && q.sent[..|p.sent|] == p.sent
  {
    if p.result.Err? then p
    else if pre.Err? then p.(result := Err(pre.error))
    else
      Progress(run.result,
               if run.written.Some? then run.written.value else p.entries,
               p.sent + (if run.submitted.Some? then [run.submitted.value] else []),
               p.wrote || run.written.Some?)
  }

  /** The panic of `chunks(0)`. */
  const ChunkPanic := "chunk size must be non-zero"

  /** StoreCode over the given chunks, one after the other. */
  function StoreChunks(p: Progress, pre: Result<(ChainInfo, UserKey), DeployError>, ws: WorkspaceSettings, fs: FileSystem,
                       isAddress: string -> bool, chunks: seq<seq<Contract>>, dryRun: bool, n0: nat,
                       answer: (nat, Batch) -> Reply): Progress
    decreases |chunks|
  {
    if |chunks| == 0 then p
    else
      var before := StoreChunks(p, pre, ws, fs, isAddress, chunks[..|chunks| - 1], dryRun, n0, answer);
      Then(before, pre, StoreCode, ws, fs, isAddress, chunks[|chunks| - 1], dryRun, n0, answer)
  }

  /** `store_code`: chunks of `store_code_chunk_size` contracts, a zero size being a panic. */
  function StoreCodeSpec(p: Progress, pre: Result<(ChainInfo, UserKey), DeployError>, chunkSize: nat,
                         ws: WorkspaceSettings, fs: FileSystem, isAddress: string -> bool, cs: seq<Contract>,
                         dryRun: bool, n0: nat, answer: (nat, Batch) -> Reply): Progress
  {
    if p.result.Err? then p
    else if chunkSize == 0 then p.(result := Err(Panic(ChunkPanic)))
    else StoreChunks(p, pre, ws, fs, isAddress, Chunks(cs, chunkSize), dryRun, n0, answer)
  }

  /** `instantiate`: Instantiate, then ExternalInstantiate on the same contracts. */
  function InstantiateSpec(p: Progress, pre: Result<(ChainInfo, UserKey), DeployError>, ws: WorkspaceSettings, fs: FileSystem,
                           isAddress: string -> bool, cs: seq<Contract>, interactive: bool, dryRun: bool, n0: nat,
                           answer: (nat, Batch) -> Reply): Progress
  {
    var q := Then(p, pre, Instantiate(interactive), ws, fs, isAddress, cs, dryRun, n0, answer);
    Then(q, pre, ExternalInstantiate, ws, fs, isAddress, cs, dryRun, n0, answer)
  }

  /** The build step: skipped with `no_build`, otherwise its failure stops the command. */
  function BuildSpec(p: Progress, noBuild: bool, built: Result<(), DeployError>): Progress {
    if p.result.Err? || noBuild || built.Ok? then p else p.(result := Err(built.error))
  }

  /** `migrate`: unless `no_build`, build and store first; then Migrate. */
  function MigrateSpec(p: Progress, pre: Result<(ChainInfo, UserKey), DeployError>, chunkSize: nat, noBuild: bool,
                       built: Result<(), DeployError>, ws: WorkspaceSettings, fs: FileSystem, isAddress: string -> bool,
                       cs: seq<Contract>, interactive: bool, dryRun: bool, n0: nat, answer: (nat, Batch) -> Reply): Progress
  {
    var q := if noBuild then p else StoreCodeSpec(BuildSpec(p, noBuild, built), pre, chunkSize, ws, fs, isAddress, cs, dryRun, n0, answer);
    Then(q, pre, Migrate(interactive), ws, fs, isAddress, cs, dryRun, n0, answer)
  }

  /**
   * `deploy` as written: the call `instantiate(settings, contracts, dry_run,
   * false)` hands `dry_run` to the `interactive` parameter and `false` to
   * `dry_run`.
   */
  function DeploySpec(p: Progress, pre: Result<(ChainInfo, UserKey), DeployError>, chunkSize: nat, noBuild: bool,
                      built: Result<(), DeployError>, ws: WorkspaceSettings, fs: FileSystem, isAddress: string -> bool,
                      cs: seq<Contract>, dryRun: bool, n0: nat, answer: (nat, Batch) -> Reply): Progress
  {
    var b := BuildSpec(p, noBuild, built);
    var s := StoreCodeSpec(b, pre, chunkSize, ws, fs, isAddress, cs, dryRun, n0, answer);
    AfterStoreSpec(s, pre, ws, fs, isAddress, cs, dryRun, false, dryRun, n0, answer)
  }

  /** `deploy` as evidently intended: instantiate non-interactively, dry-run exactly when the deployment is. */
  function DeployIntendedSpec(p: Progress, pre: Result<(ChainInfo, UserKey), DeployError>, chunkSize: nat, noBuild: bool,
                              built: Result<(), DeployError>, ws: WorkspaceSettings, fs: FileSystem, isAddress: string -> bool,
                              cs: seq<Contract>, dryRun: bool, n0: nat, answer: (nat, Batch) -> Reply): Progress
  {
    var b := BuildSpec(p, noBuild, built);
    var s := StoreCodeSpec(b, pre, chunkSize, ws, fs, isAddress, cs, dryRun, n0, answer);
    AfterStoreSpec(s, pre, ws, fs, isAddress, cs, false, dryRun, dryRun, n0, answer)
  }

  /**
   * The part of `deploy` after `store_code`: `instantiate` with the given
   * flags, then `set_config` and `set_up` with the deployment's `dry_run`.
   */
  function AfterStoreSpec(p: Progress, pre: Result<(ChainInfo, UserKey), DeployError>, ws: WorkspaceSettings, fs: FileSystem,
                          isAddress: string -> bool, cs: seq<Contract>, interactive: bool, instantiateDryRun: bool,
                          dryRun: bool, n0: nat, answer: (nat, Batch) -> Reply): Progress
  {
    var i := InstantiateSpec(p, pre, ws, fs, isAddress, cs, interactive, instantiateDryRun, n0, answer);
    var c := Then(i, pre, SetConfig, ws, fs, isAddress, cs, dryRun, n0, answer);
    Then(c, pre, SetUp, ws, fs, isAddress, cs, dryRun, n0, answer)
  }

  /** Once a step has failed, the stages after `store_code` change nothing. */
  lemma AfterStoreStops(p: Progress, pre: Result<(ChainInfo, UserKey), DeployError>, ws: WorkspaceSettings, fs: FileSystem,
                        isAddress: string -> bool, cs: seq<Contract>, interactive: bool, instantiateDryRun: bool,
                        dryRun: bool, n0: nat, answer: (nat, Batch) -> Reply)
    requires p.result.Err?
    ensures AfterStoreSpec(p, pre, ws, fs, isAddress, cs, interactive, instantiateDryRun, dryRun, n0, answer) == p
  {
  }

  // ----- The registry and the chain after a run -----

  /**
   * The registry and the chain reflect `p` relative to `o`: the batches of
   * `p` were sent; the active contract list is `p`'s, written in place and
   * saved if anything was written; the preamble still has its outcome.
   */
  predicate Reached(config: Config, chain: Chain, o: Origin, p: Progress)
    reads config, chain
  {
    ReachedState(o, p, chain.sent, Preamble(config, chain), config.envs, config.saved, config.Value())
  }

  /** `Reached`, on the parts of the registry and the chain it looks at. */
  predicate ReachedState(o: Origin, p: Progress, sent: seq<Batch>, pre: Result<(ChainInfo, UserKey), DeployError>,
                         envs: seq<Env>, saved: Snapshot, value: Snapshot)
  {
    && sent == o.sent + p.sent
    && pre == o.pre
    && (o.pre.Ok? ==> ActiveIndex(o.envs).Some?)
    && envs == WithActiveEntries(o.envs, p.entries)
    && saved == (if p.wrote then value else o.saved)
    && p.entries == ActiveEntries(envs)
  }

  /**
   * One stage, as `ExecuteDeployment` promises it, takes a state that reached
   * `p` to one that reached `Then(p, ...)`.
   */
  lemma Advance(o: Origin, p: Progress, stage: DeploymentStage, ws: WorkspaceSettings, fs: FileSystem,
                isAddress: string -> bool, cs: seq<Contract>, dryRun: bool, answer: (nat, Batch) -> Reply,
                r: Result<(), DeployError>, sent0: seq<Batch>, envs0: seq<Env>, saved0: Snapshot, value0: Snapshot,
                sent1: seq<Batch>, pre1: Result<(ChainInfo, UserKey), DeployError>, envs1: seq<Env>, saved1: Snapshot, value1: Snapshot)
    requires ReachedState(o, p, sent0, o.pre, envs0, saved0, value0) && p.result.Ok? && pre1 == o.pre
    requires o.pre.Err? ==> r == Err(o.pre.error) && sent1 == sent0 && envs1 == envs0 && saved1 == saved0 && value1 == value0
    requires o.pre.Ok? ==>
      var run := RunSpec(stage, ActiveEntries(envs0), ws, fs, isAddress, cs, dryRun, |sent0|, answer);
      && r == run.result
      && sent1 == sent0 + (if run.submitted.Some? then [run.submitted.value] else [])
      && envs1 == (if run.written.Some? then WithActiveEntries(envs0, run.written.value) else envs0)
      && saved1 == (if run.written.Some? then value1 else saved0)
      && (run.written.None? ==> value1 == value0)
    ensures var q := Then(p, o.pre, stage, ws, fs, isAddress, cs, dryRun, |o.sent|, answer);
      r == q.result && ReachedState(o, q, sent1, pre1, envs1, saved1, value1)
  {
    assert p.entries == ActiveEntries(envs0) && |sent0| == |o.sent| + |p.sent|;
    var run := RunSpec(stage, ActiveEntries(envs0), ws, fs, isAddress, cs, dryRun, |sent0|, answer);
    ThenContinues(p, o.pre, stage, ws, fs, isAddress, cs, dryRun, |o.sent|, answer, ActiveEntries(envs0), |sent0|);
    AdvanceWith(o, p, run, r, sent0, envs0, saved0, value0, sent1, pre1, envs1, saved1, value1);
  }

  /** `Then` is `Continue` with the run of the stage on the progress's contract list, numbered after its batches. */
  lemma ThenContinues(p: Progress, pre: Result<(ChainInfo, UserKey), DeployError>, stage: DeploymentStage,
                      ws: WorkspaceSettings, fs: FileSystem, isAddress: string -> bool, cs: seq<Contract>,
                      dryRun: bool, n0: nat, answer: (nat, Batch) -> Reply, entries: seq<ContractInfo>, n: nat)
    requires entries == p.entries && n == n0 + |p.sent|
    ensures Then(p, pre, stage, ws, fs, isAddress, cs, dryRun, n0, answer)
         == Continue(p, pre, RunSpec(stage, entries, ws, fs, isAddress, cs, dryRun, n, answer))
  {
  }

  /** `Advance` for any outcome of the stage. */
  lemma AdvanceWith(o: Origin, p: Progress, run: StageRun,
                    r: Result<(), DeployError>, sent0: seq<Batch>, envs0: seq<Env>, saved0: Snapshot, value0: Snapshot,
                    sent1: seq<Batch>, pre1: Result<(ChainInfo, UserKey), DeployError>, envs1: seq<Env>, saved1: Snapshot, value1: Snapshot)
    requires ReachedState(o, p, sent0, o.pre, envs0, saved0, value0) && p.result.Ok? && pre1 == o.pre
    requires o.pre.Err? ==> r == Err(o.pre.error) && sent1 == sent0 && envs1 == envs0 && saved1 == saved0 && value1 == value0
    requires o.pre.Ok? ==>
      && r == run.result
      && sent1 == sent0 + (if run.submitted.Some? then [run.submitted.value] else [])
      && envs1 == (if run.written.Some? then WithActiveEntries(envs0, run.written.value) else envs0)
      && saved1 == (if run.written.Some? then value1 else saved0)
      && (run.written.None? ==> value1 == value0)
    ensures var q := Continue(p, o.pre, run);
      r == q.result && ReachedState(o, q, sent1, pre1, envs1, saved1, value1)
  {
    if o.pre.Ok? && run.written.Some? {
      WithActiveEntriesKeepsActive(o.envs, p.entries, run.written.value);
    }
  }

  /** A run about to start: nothing done, relative to the registry and chain as they are. */
  lemma Starting(config: Config, chain: Chain)
    ensures Reached(config, chain, Origin(config.envs, config.saved, chain.sent, Preamble(config, chain)), Start(ActiveEntries(config.envs)))
  {
    WithActiveEntriesKeepsActive(config.envs, [], []);
  }

  /** One `execute_deployment` call within a run. */
  method RunOne(config: Config, chain: Chain, ws: WorkspaceSettings, fs: FileSystem, isAddress: string -> bool,
                cs: seq<Contract>, dryRun: bool, stage: DeploymentStage, ghost o: Origin, ghost p: Progress)
    returns (r: Result<(), DeployError>)
    requires Reached(config, chain, o, p) && p.result.Ok?
    modifies config`envs, config`saved, chain`sent
    ensures var q := Then(p, o.pre, stage, ws, fs, isAddress, cs, dryRun, |o.sent|, chain.answer);
      r == q.result && Reached(config, chain, o, q)
  {
    ghost var sent0, envs0, saved0, value0 := chain.sent, config.envs, config.saved, config.Value();
    r := ExecuteDeployment(config, chain, ws, fs, isAddress, cs, dryRun, stage);
    Advance(o, p, stage, ws, fs, isAddress, cs, dryRun, chain.answer, r, sent0, envs0, saved0, value0,
            chain.sent, Preamble(config, chain), config.envs, config.saved, config.Value());
  }

  /** Once a prefix of the chunks has failed, the remaining chunks change nothing. */
  lemma {:induction false} StoreChunksStops(p: Progress, pre: Result<(ChainInfo, UserKey), DeployError>, ws: WorkspaceSettings,
                                            fs: FileSystem, isAddress: string -> bool, chunks: seq<seq<Contract>>, k: nat,
                                            dryRun: bool, n0: nat, answer: (nat, Batch) -> Reply)
    requires k <= |chunks|
    requires StoreChunks(p, pre, ws, fs, isAddress, chunks[..k], dryRun, n0, answer).result.Err?
    ensures StoreChunks(p, pre, ws, fs, isAddress, chunks, dryRun, n0, answer)
         == StoreChunks(p, pre, ws, fs, isAddress, chunks[..k], dryRun, n0, answer)
    decreases |chunks|
  {
    if k == |chunks| {
      assert chunks[..k] == chunks;
    } else {
      var init := chunks[..|chunks| - 1];
      assert init[..k] == chunks[..k];
      StoreChunksStops(p, pre, ws, fs, isAddress, init, k, dryRun, n0, answer);
    }
  }

  /** One more chunk is one more StoreCode stage. */
  lemma StoreChunksStep(p: Progress, pre: Result<(ChainInfo, UserKey), DeployError>, ws: WorkspaceSettings,
                        fs: FileSystem, isAddress: string -> bool, chunks: seq<seq<Contract>>, i: nat,
                        dryRun: bool, n0: nat, answer: (nat, Batch) -> Reply)
    requires i < |chunks|
    ensures StoreChunks(p, pre, ws, fs, isAddress, chunks[..i + 1], dryRun, n0, answer)
         == Then(StoreChunks(p, pre, ws, fs, isAddress, chunks[..i], dryRun, n0, answer), pre, StoreCode, ws, fs, isAddress,
                 chunks[i], dryRun, n0, answer)
  {
    assert chunks[..i + 1][..i] == chunks[..i];
  }

  /** `store_code`: one StoreCode deployment per chunk, stopping at the first error. */
  method StoreCodeCommand(config: Config, chain: Chain, ws: WorkspaceSettings, fs: FileSystem, isAddress: string -> bool,
                          cs: seq<Contract>, dryRun: bool, ghost o: Origin, ghost p: Progress)
    returns (r: Result<(), DeployError>)
    requires Reached(config, chain, o, p) && p.result.Ok?
    modifies config`envs, config`saved, chain`sent
    ensures var q := StoreCodeSpec(p, o.pre, config.settings.storeCodeChunkSize, ws, fs, isAddress, cs, dryRun, |o.sent|, chain.answer);
      r == q.result && Reached(config, chain, o, q)
  {
    var size := config.settings.storeCodeChunkSize;
    if size == 0 {
      return Err(Panic(ChunkPanic));
    }
    r := StoreEachChunk(config, chain, ws, fs, isAddress, Chunks(cs, size), dryRun, o, p);
  }

  /** The loop of `store_code` over its chunks. */
  method StoreEachChunk(config: Config, chain: Chain, ws: WorkspaceSettings, fs: FileSystem, isAddress: string -> bool,
                        chunks: seq<seq<Contract>>, dryRun: bool, ghost o: Origin, ghost p: Progress)
    returns (r: Result<(), DeployError>)
    requires Reached(config, chain, o, p) && p.result.Ok?
    modifies config`envs, config`saved, chain`sent
    ensures var q := StoreChunks(p, o.pre, ws, fs, isAddress, chunks, dryRun, |o.sent|, chain.answer);
      r == q.result && Reached(config, chain, o, q)
  {
    ghost var q := p;
    r := Ok(());
    assert p.result.value == ();
    var i := 0;
    while i < |chunks|
      invariant 0 <= i <= |chunks|
      invariant q == StoreChunks(p, o.pre, ws, fs, isAddress, chunks[..i], dryRun, |o.sent|, chain.answer)
      invariant r == q.result && r.Ok? && Reached(config, chain, o, q)
    {
      r, q := StoreChunk(config, chain, ws, fs, isAddress, chunks, i, dryRun, o, p, q);
      if r.Err? {
        return;
      }
      i := i + 1;
    }
    assert chunks[..i] == chunks;
  }

  /** One turn of the loop of `store_code`: the StoreCode stage on chunk `i`. */
  method StoreChunk(config: Config, chain: Chain, ws: WorkspaceSettings, fs: FileSystem, isAddress: string -> bool,
                    chunks: seq<seq<Contract>>, i: nat, dryRun: bool, ghost o: Origin, ghost p: Progress, ghost q: Progress)
    returns (r: Result<(), DeployError>, ghost q': Progress)
    requires i < |chunks|
    requires q == StoreChunks(p, o.pre, ws, fs, isAddress, chunks[..i], dryRun, |o.sent|, chain.answer)
    requires Reached(config, chain, o, q) && q.result.Ok?
    modifies config`envs, config`saved, chain`sent
    ensures q' == StoreChunks(p, o.pre, ws, fs, isAddress, chunks[..i + 1], dryRun, |o.sent|, chain.answer)
    ensures r == q'.result && Reached(config, chain, o, q')
    ensures r.Err? ==>
      StoreChunks(p, o.pre, ws, fs, isAddress, chunks, dryRun, |o.sent|, chain.answer)
      == StoreChunks(p, o.pre, ws, fs, isAddress, chunks[..i + 1], dryRun, |o.sent|, chain.answer)
  {
    r := RunOne(config, chain, ws, fs, isAddress, chunks[i], dryRun, StoreCode, o, q);
    q' := Then(q, o.pre, StoreCode, ws, fs, isAddress, chunks[i], dryRun, |o.sent|, chain.answer);
    StoreChunksStep(p, o.pre, ws, fs, isAddress, chunks, i, dryRun, |o.sent|, chain.answer);
    if r.Err? {
      StoreChunksStops(p, o.pre, ws, fs, isAddress, chunks, i + 1, dryRun, |o.sent|, chain.answer);
    }
  }

  /** `instantiate`: Instantiate, then ExternalInstantiate unless the first failed. */
  method InstantiateCommand(config: Config, chain: Chain, ws: WorkspaceSettings, fs: FileSystem, isAddress: string -> bool,
                            cs: seq<Contract>, interactive: bool, dryRun: bool, ghost o: Origin, ghost p: Progress)
    returns (r: Result<(), DeployError>)
    requires Reached(config, chain, o, p) && p.result.Ok?
    modifies config`envs, config`saved, chain`sent
    ensures var q := InstantiateSpec(p, o.pre, ws, fs, isAddress, cs, interactive, dryRun, |o.sent|, chain.answer);
      r == q.result && Reached(config, chain, o, q)
  {
    r := RunOne(config, chain, ws, fs, isAddress, cs, dryRun, Instantiate(interactive), o, p);
    if r.Err? {
      return;
    }
    ghost var q := Then(p, o.pre, Instantiate(interactive), ws, fs, isAddress, cs, dryRun, |o.sent|, chain.answer);
    r := RunOne(config, chain, ws, fs, isAddress, cs, dryRun, ExternalInstantiate, o, q);
  }

  /** `set_config`: the SetConfig stage. */
  method SetConfigCommand(config: Config, chain: Chain, ws: WorkspaceSettings, fs: FileSystem, isAddress: string -> bool,
                          cs: seq<Contract>, dryRun: bool, ghost o: Origin, ghost p: Progress)
    returns (r: Result<(), DeployError>)
    requires Reached(config, chain, o, p) && p.result.Ok?
    modifies config`envs, config`saved, chain`sent
    ensures var q := Then(p, o.pre, SetConfig, ws, fs, isAddress, cs, dryRun, |o.sent|, chain.answer);
      r == q.result && Reached(config, chain, o, q)
  {
    r := RunOne(config, chain, ws, fs, isAddress, cs, dryRun, SetConfig, o, p);
  }

  /** `set_up`: the SetUp stage. */
  method SetUpCommand(config: Config, chain: Chain, ws: WorkspaceSettings, fs: FileSystem, isAddress: string -> bool,
                      cs: seq<Contract>, dryRun: bool, ghost o: Origin, ghost p: Progress)
    returns (r: Result<(), DeployError>)
    requires Reached(config, chain, o, p) && p.result.Ok?
    modifies config`envs, config`saved, chain`sent
    ensures var q := Then(p, o.pre, SetUp, ws, fs, isAddress, cs, dryRun, |o.sent|, chain.answer);
      r == q.result && Reached(config, chain, o, q)
  {
    r := RunOne(config, chain, ws, fs, isAddress, cs, dryRun, SetUp, o, p);
  }

  /**
   * `migrate`: unless `no_build`, the build (whose outcome is `built`) and
   * `store_code`; then the Migrate stage.
   */
  method MigrateCommand(config: Config, chain: Chain, ws: WorkspaceSettings, fs: FileSystem, isAddress: string -> bool,
                        cs: seq<Contract>, interactive: bool, noBuild: bool, built: Result<(), DeployError>, dryRun: bool,
                        ghost o: Origin, ghost p: Progress)
    returns (r: Result<(), DeployError>)
    requires Reached(config, chain, o, p) && p.result.Ok?
    modifies config`envs, config`saved, chain`sent
    ensures var q := MigrateSpec(p, o.pre, config.settings.storeCodeChunkSize, noBuild, built, ws, fs, isAddress, cs,
                                 interactive, dryRun, |o.sent|, chain.answer);
      r == q.result && Reached(config, chain, o, q)
  {
    ghost var q := p;
    if !noBuild {
      if built.Err? {
        return Err(built.error);
      }
      r := StoreCodeCommand(config, chain, ws, fs, isAddress, cs, dryRun, o, p);
      if r.Err? {
        return;
      }
      q := StoreCodeSpec(p, o.pre, config.settings.storeCodeChunkSize, ws, fs, isAddress, cs, dryRun, |o.sent|, chain.answer);
    }
    r := RunOne(config, chain, ws, fs, isAddress, cs, dryRun, Migrate(interactive), o, q);
  }

  /**
   * `deploy` as written: build unless `no_build`, then `store_code`,
   * `instantiate(dry_run, false)`, `set_config` and `set_up`, stopping at the
   * first error.
   */
  method Deploy(config: Config, chain: Chain, ws: WorkspaceSettings, fs: FileSystem, isAddress: string -> bool,
                cs: seq<Contract>, noBuild: bool, built: Result<(), DeployError>, dryRun: bool)
    returns (r: Result<(), DeployError>)
    modifies config`envs, config`saved, chain`sent
    ensures var o := Origin(old(config.envs), old(config.saved), old(chain.sent), old(Preamble(config, chain)));
      var q := DeploySpec(Start(ActiveEntries(old(config.envs))), o.pre, config.settings.storeCodeChunkSize, noBuild, built,
                          ws, fs, isAddress, cs, dryRun, |o.sent|, chain.answer);
      r == q.result && Reached(config, chain, o, q)
  {
    Starting(config, chain);
    ghost var o := Origin(config.envs, config.saved, chain.sent, Preamble(config, chain));
    ghost var p := Start(ActiveEntries(config.envs));
    if !noBuild && built.Err? {
      AfterStoreStops(BuildSpec(p, noBuild, built), o.pre, ws, fs, isAddress, cs, dryRun, false, dryRun, |o.sent|, chain.answer);
      return Err(built.error);
    }
    r := StoreCodeCommand(config, chain, ws, fs, isAddress, cs, dryRun, o, p);
    if r.Err? {
      AfterStoreStops(StoreCodeSpec(p, o.pre, config.settings.storeCodeChunkSize, ws, fs, isAddress, cs, dryRun, |o.sent|, chain.answer),
                      o.pre, ws, fs, isAddress, cs, dryRun, false, dryRun, |o.sent|, chain.answer);
      return;
    }
    p := StoreCodeSpec(p, o.pre, config.settings.storeCodeChunkSize, ws, fs, isAddress, cs, dryRun, |o.sent|, chain.answer);
    r := InstantiateToSetUp(config, chain, ws, fs, isAddress, cs, dryRun, false, dryRun, o, p);
  }

  /**
   * `deploy` as evidently intended: as `Deploy`, but `instantiate` is called
   * with `interactive` false and the deployment's own `dry_run`.
   */
  method DeployIntended(config: Config, chain: Chain, ws: WorkspaceSettings, fs: FileSystem, isAddress: string -> bool,
                        cs: seq<Contract>, noBuild: bool, built: Result<(), DeployError>, dryRun: bool)
    returns (r: Result<(), DeployError>)
    modifies config`envs, config`saved, chain`sent
    ensures var o := Origin(old(config.envs), old(config.saved), old(chain.sent), old(Preamble(config, chain)));
      var q := DeployIntendedSpec(Start(ActiveEntries(old(config.envs))), o.pre, config.settings.storeCodeChunkSize, noBuild, built,
                                  ws, fs, isAddress, cs, dryRun, |o.sent|, chain.answer);
      r == q.result && Reached(config, chain, o, q)
  {
    Starting(config, chain);
    ghost var o := Origin(config.envs, config.saved, chain.sent, Preamble(config, chain));
    ghost var p := Start(ActiveEntries(config.envs));
    if !noBuild && built.Err? {
      AfterStoreStops(BuildSpec(p, noBuild, built), o.pre, ws, fs, isAddress, cs, false, dryRun, dryRun, |o.sent|, chain.answer);
      return Err(built.error);
    }
    r := StoreCodeCommand(config, chain, ws, fs, isAddress, cs, dryRun, o, p);
    if r.Err? {
      AfterStoreStops(StoreCodeSpec(p, o.pre, config.settings.storeCodeChunkSize, ws, fs, isAddress, cs, dryRun, |o.sent|, chain.answer),
                      o.pre, ws, fs, isAddress, cs, false, dryRun, dryRun, |o.sent|, chain.answer);
      return;
    }
    p := StoreCodeSpec(p, o.pre, config.settings.storeCodeChunkSize, ws, fs, isAddress, cs, dryRun, |o.sent|, chain.answer);
    r := InstantiateToSetUp(config, chain, ws, fs, isAddress, cs, false, dryRun, dryRun, o, p);
  }

  /** `instantiate`, `set_config` and `set_up`, in turn, as `deploy` calls them after `store_code`. */
  method InstantiateToSetUp(config: Config, chain: Chain, ws: WorkspaceSettings, fs: FileSystem, isAddress: string -> bool,
                            cs: seq<Contract>, interactive: bool, instantiateDryRun: bool, dryRun: bool,
                            ghost o: Origin, ghost p: Progress)
    returns (r: Result<(), DeployError>)
    requires Reached(config, chain, o, p) && p.result.Ok?
    modifies config`envs, config`saved, chain`sent
    ensures var q := AfterStoreSpec(p, o.pre, ws, fs, isAddress, cs, interactive, instantiateDryRun, dryRun, |o.sent|, chain.answer);
      r == q.result && Reached(config, chain, o, q)
  {
    r := InstantiateCommand(config, chain, ws, fs, isAddress, cs, interactive, instantiateDryRun, o, p);
    if r.Err? {
      return;
    }
    ghost var q := InstantiateSpec(p, o.pre, ws, fs, isAddress, cs, interactive, instantiateDryRun, |o.sent|, chain.answer);
    r := SetConfigCommand(config, chain, ws, fs, isAddress, cs, dryRun, o, q);
    if r.Err? {
      return;
    }
    q := Then(q, o.pre, SetConfig, ws, fs, isAddress, cs, dryRun, |o.sent|, chain.answer);
    r := SetUpCommand(config, chain, ws, fs, isAddress, cs, dryRun, o, q);
  }

  // ----- Properties of whole commands -----

  /** A dry run of `store_code` sends nothing and writes nothing, chunk after chunk. */
  lemma {:induction false} StoreChunksDryRun(p: Progress, pre: Result<(ChainInfo, UserKey), DeployError>, ws: WorkspaceSettings,
                                             fs: FileSystem, isAddress: string -> bool, chunks: seq<seq<Contract>>,
                                             n0: nat, answer: (nat, Batch) -> Reply)
    ensures var q := StoreChunks(p, pre, ws, fs, isAddress, chunks, true, n0, answer);
      q.sent == p.sent && q.wrote == p.wrote && q.entries == p.entries
    decreases |chunks|
  {
    if |chunks| > 0 {
      StoreChunksDryRun(p, pre, ws, fs, isAddress, chunks[..|chunks| - 1], n0, answer);
    }
  }

  /**
   * With a failing preamble, every chunk of `store_code` fails with the
   * preamble's error before sending anything.
   */
  lemma {:induction false} StoreChunksWithoutPreamble(p: Progress, pre: Result<(ChainInfo, UserKey), DeployError>, ws: WorkspaceSettings,
                                                      fs: FileSystem, isAddress: string -> bool, chunks: seq<seq<Contract>>,
                                                      dryRun: bool, n0: nat, answer: (nat, Batch) -> Reply)
    requires pre.Err? && p.result.Ok?
    ensures var q := StoreChunks(p, pre, ws, fs, isAddress, chunks, dryRun, n0, answer);
      && q.sent == p.sent && q.wrote == p.wrote && q.entries == p.entries
      && q.result == (if |chunks| == 0 then p.result else Err(pre.error))
    decreases |chunks|
  {
    if |chunks| > 0 {
      StoreChunksWithoutPreamble(p, pre, ws, fs, isAddress, chunks[..|chunks| - 1], dryRun, n0, answer);
    }
  }

  /**
   * The corrected `deploy` under `dry_run` sends no batch and writes nothing
   * back, whatever the contracts, the registry and the chain.
   */
  lemma DeployIntendedDryRun(p: Progress, pre: Result<(ChainInfo, UserKey), DeployError>, chunkSize: nat, noBuild: bool,
                             built: Result<(), DeployError>, ws: WorkspaceSettings, fs: FileSystem, isAddress: string -> bool,
                             cs: seq<Contract>, n0: nat, answer: (nat, Batch) -> Reply)
    ensures var q := DeployIntendedSpec(p, pre, chunkSize, noBuild, built, ws, fs, isAddress, cs, true, n0, answer);
      q.sent == p.sent && q.wrote == p.wrote && q.entries == p.entries
  {
    var b := BuildSpec(p, noBuild, built);
    if b.result.Ok? && chunkSize > 0 {
      StoreChunksDryRun(b, pre, ws, fs, isAddress, Chunks(cs, chunkSize), n0, answer);
    }
  }

  /**
   * `deploy` as written, asked for a dry run of no contracts, with a working
   * preamble, still submits one batch: the Instantiate batch, because its
   * `instantiate` call is not a dry run.
   */
  lemma DeployDryRunSubmits(p: Progress, pre: Result<(ChainInfo, UserKey), DeployError>, chunkSize: nat,
                            ws: WorkspaceSettings, fs: FileSystem, isAddress: string -> bool, n0: nat, answer: (nat, Batch) -> Reply)
    requires p.result.Ok? && pre.Ok? && chunkSize > 0
    ensures var q := DeploySpec(p, pre, chunkSize, true, Ok(()), ws, fs, isAddress, [], true, n0, answer);
      q.sent == p.sent + [InstantiateBatch([])]
  {
    assert Chunks<Contract>([], chunkSize) == [];
    EmptyBatchRule(Instantiate(true), p.entries, ws, fs, isAddress);
    EmptyBatchRule(ExternalInstantiate, p.entries, ws, fs, isAddress);
  }

  /**
   * A failing preamble (no active environment, chain or key, or an
   * endpoint the client constructor rejects) makes `deploy` fail with that error without
   * sending or writing anything, once the build has succeeded.
   */
  lemma DeployWithoutPreamble(p: Progress, pre: Result<(ChainInfo, UserKey), DeployError>, chunkSize: nat, noBuild: bool,
                              ws: WorkspaceSettings, fs: FileSystem, isAddress: string -> bool, cs: seq<Contract>,
                              dryRun: bool, n0: nat, answer: (nat, Batch) -> Reply)
    requires pre.Err? && p.result.Ok? && chunkSize > 0
    ensures var q := DeploySpec(p, pre, chunkSize, noBuild, Ok(()), ws, fs, isAddress, cs, dryRun, n0, answer);
      q.result == Err(pre.error) && q.sent == p.sent && q.wrote == p.wrote
  {
    StoreChunksWithoutPreamble(p, pre, ws, fs, isAddress, Chunks(cs, chunkSize), dryRun, n0, answer);
  }
}
