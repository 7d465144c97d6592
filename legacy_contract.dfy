/**
 * The contract descriptor of the original crate (the `Contract` trait of
 * src/contract.rs), and what its two engines share: where a contract's code
 * is read from, the panics they can end in, and the address substitution of
 * src/utils.rs and src/contract.rs.
 */
module LegacyContract {
  import opened Wrappers
  import opened Types
  import opened Substitution

  /** `ExternalInstantiate`: a further contract instantiated from a code id on a contract's behalf. */
  datatype ExternalInstantiate = ExternalInstantiate(msg: Json, codeId: u64, name: string)

  /**
   * What the engines ask of a contract: its display form (`to_string`, under
   * which the registry is searched), its `name` (the label and the name of a
   * new registry entry), its admin, and its messages, each of which may fail.
   * `configMsg` and `migrateMsg` are the two optional messages src/wasm_msg.rs
   * calls for; `baseConfigMsg` is the one `execute_set_config` sends.
   */
  datatype Descriptor = Descriptor(
    display: string,
    name: string,
    admin: string,
    instantiateMsg: Result<Json, DeployError>,
    externals: Result<seq<ExternalInstantiate>, DeployError>,
    baseConfigMsg: Result<Json, DeployError>,
    configMsg: Result<Option<Json>, DeployError>,
    setUpMsgs: Result<seq<Json>, DeployError>,
    migrateMsg: Result<Option<Json>, DeployError>)

  /** `./artifacts/<name>.wasm`, relative to the working directory, where a contract's code is read from. */
  function ArtifactPath(c: Descriptor): Path {
    Path(false, [".", "artifacts", c.name + ".wasm"])
  }

  /** The panic of `unwrap` on a failed address parse or a missing event. */
  const UnwrapPanic := "called `Result::unwrap()` on an `Err` value"
  /** The panic of indexing past the end of the chain's answer. */
  const IndexPanic := "index out of bounds"

  /** A message after the `replace_strings` of src/utils.rs and src/contract.rs, whose failure does not name the contract. */
  function Rewritten(m: Json, entries: seq<ContractInfo>): Result<Json, DeployError> {
    Replaced(m, entries, false)
  }
}
