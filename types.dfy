/**
 * The values the registry, the engines and the commands exchange: registry
 * records (`ContractInfo`, `Env`, keys, chains, user settings), JSON messages,
 * file-system paths, and the error kinds of the `DeployError` enums.
 */
module Types {
  import opened Wrappers

  newtype u64 = x: int | 0 <= x < 0x1_0000_0000_0000_0000
  newtype u8 = x: int | 0 <= x < 0x100

  /** A `PathBuf`: absolute or relative, as its list of components. */
  datatype Path = Path(absolute: bool, parts: seq<string>)

  /** `PathBuf::join` with a relative argument: the components are appended. */
  function Join(p: Path, rel: seq<string>): (r: Path)
    ensures r.absolute == p.absolute && |r.parts| == |p.parts| + |rel|
    ensures r.parts[..|p.parts|] == p.parts && r.parts[|p.parts|..] == rel
  {
    Path(p.absolute, p.parts + rel)
  }

  /** What the program can observe of the disk: file contents by path, and the set of directories. */
  datatype FileSystem = FileSystem(files: map<Path, seq<u8>>, dirs: set<Path>)
  {
    predicate IsFile(p: Path) { p in files }
    predicate IsDir(p: Path) { p in dirs }
  }

  /** A `serde_json::Value`; an object keeps its entries in iteration order. */
  datatype Json =
    | Null
    | Bool(b: bool)
    | Number(n: int)
    | Str(s: string)
    | Array(items: seq<Json>)
    | Object(fields: seq<Field>)

  datatype Field = Field(key: string, value: Json)

  /** One deployed contract as the registry records it. */
  datatype ContractInfo = ContractInfo(name: string, addr: Option<string>, codeId: Option<u64>)

  /**
   * A deployment environment. `chainLabel` is the key into the chain map
   * (`chain_label`); the older registries store a chain id in the same place.
   */
  datatype Env = Env(isActive: bool, envId: string, chainLabel: string, contracts: seq<ContractInfo>, keyName: string)

  /** The signing material of a key; its cryptography is not modelled. */
  datatype KeyMaterial = Mnemonic(phrase: string) | Keyring(service: string, user: string) | Ledger

  datatype UserKey = UserKey(name: string, key: KeyMaterial)

  /** The chain parameters that are not floating point. */
  datatype ChainConfig = ChainConfig(denom: string, prefix: string, chainId: string, derivationPath: string)

  datatype ChainInfo = ChainInfo(cfg: ChainConfig, rpcEndpoint: string)

  datatype UserSettings = UserSettings(storeCodeChunkSize: nat)

  /** `UserSettings::default`. */
  function DefaultUserSettings(): (s: UserSettings)
    ensures s.storeCodeChunkSize == 2
  {
    UserSettings(2)
  }

  /** A failure reported by the chain or by the transport to it. */
  datatype ChainError = Transport(endpoint: string) | CosmosSdk(code: nat, log: string)

  /**
   * The error kinds of the `DeployError` enums of both crates, plus the
   * library failures the model needs: a cancelled prompt, `anyhow::bail!`
   * with its message, a panic with its message, and an I/O failure on a path.
   * Variants that carry a name in one crate and none in the other use an `Option`.
   */
  datatype DeployError =
    | EnvNotFound
    | EnvAlreadyExists
    | ChainConfigNotFound
    | ChainAlreadyExists
    | KeyNotFound(keyName: string)
    | KeyAlreadyExists
    | ContractNotFound(contractName: Option<string>)
    | AddrNotFound(addrOf: Option<string>)
    | NoAddr
    | CodeIdNotFound
    | MissingGRpc
    | TraitNotImplemented
    | InvalidAddress(text: string)
    | AdminAddress
    | Io(path: Path)
    | Chain(cause: ChainError)
    | PromptFailed
    | Bail(message: string)
    | Panic(message: string)

  /**
   * An `inquire::Select` prompt: the user's answer is a parameter; it is
   * accepted only if it is one of the offered options (so an empty list of
   * options always fails).
   */
  function Select<T(==)>(options: seq<T>, answer: T): (r: Result<T, DeployError>)
    ensures r.Ok? <==> answer in options
    ensures r.Ok? ==> r.value == answer
    ensures r.Err? ==> r.error == PromptFailed
  {
    if answer in options then Ok(answer) else Err(PromptFailed)
  }
}
