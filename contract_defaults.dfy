/**
 * The `Deploy` and `ContractInteractive` traits of wasm-deploy/src/contract.rs.
 * A contract type is described by the methods it overrides (`Overrides`,
 * `None` meaning "the trait default"); dispatch resolves each method to the
 * override or to the default, and `Describe` gives the view of a contract the
 * deployment engine works with (`Contract`). Messages are JSON values; what an
 * interactive prompt would produce is part of the description.
 */
module ContractDefaults {
  import opened Wrappers
  import opened Types

  /** `ExternalInstantiate<T>`: a contract instantiated from an existing code id alongside a local one. */
  datatype External<T> = External(msg: T, codeId: u64, name: string)

  /** `From<ExternalInstantiate<T>> for ExternalInstantiate<Box<dyn Msg>>`, with `box` standing for the boxing. */
  function Boxed<T>(e: External<T>, box: T -> Json): (r: External<Json>)
    ensures r.codeId == e.codeId && r.name == e.name && r.msg == box(e.msg)
  {
    External(box(e.msg), e.codeId, e.name)
  }

  /**
   * What a contract type defines itself. `display` is its `Display` form and
   * `admin` is the one method without a default; every other field is `None`
   * when the trait default is used. The interactive methods carry what the
   * prompt would yield.
   */
  datatype Overrides = Overrides(
    display: string,
    admin: string,
    name: Option<string>,
    packageId: Option<string>,
    binName: Option<string>,
    path: Option<Path>,
    instantiate: Option<Result<Json, DeployError>>,
    execute: Option<Result<Json, DeployError>>,
    query: Option<Result<Json, DeployError>>,
    migrate: Option<Result<Json, DeployError>>,
    cw20Send: Option<Result<Json, DeployError>>,
    instantiateMsg: Option<Option<Json>>,
    migrateMsg: Option<Option<Json>>,
    setConfigMsg: Option<Option<Json>>,
    setUpMsgs: Option<seq<Json>>,
    externals: Option<seq<External<Json>>>)

  /** A contract type that overrides nothing but its display form and admin. */
  function Bare(display: string, admin: string): Overrides {
    Overrides(display, admin, None, None, None, None, None, None, None, None, None, None, None, None, None, None)
  }

  /** The methods `ContractInteractive` provides by default; an unimplemented one reports `TraitNotImplemented`. */
  function Interactive(m: Option<Result<Json, DeployError>>): Result<Json, DeployError> {
    m.GetOr(Err(TraitNotImplemented))
  }

  function Name(o: Overrides): string {
    o.name.GetOr(o.display)
  }

  function PackageId(o: Overrides): string {
    o.packageId.GetOr(Name(o))
  }

  /** `bin_name`; `snake` stands for the snake-case conversion of the case-conversion library. */
  function BinName(o: Overrides, snake: string -> string): string {
    o.binName.GetOr(snake(PackageId(o)))
  }

  function ContractPath(o: Overrides): Path {
    o.path.GetOr(Path(false, ["contracts", Name(o)]))
  }

  function Instantiate(o: Overrides): Result<Json, DeployError> {
    Interactive(o.instantiate)
  }

  /** `instantiate_msg`: by default whatever interactive `instantiate` yields, if it succeeds. */
  function InstantiateMsg(o: Overrides): Option<Json> {
    o.instantiateMsg.GetOr(Instantiate(o).ToOption())
  }

  /** A contract as the deployment engine sees it: every trait method already resolved. */
  datatype Contract = Contract(
    display: string,
    name: string,
    binName: string,
    admin: string,
    instantiateMsg: Option<Json>,
    instantiate: Result<Json, DeployError>,
    migrateMsg: Option<Json>,
    migrate: Result<Json, DeployError>,
    setConfigMsg: Option<Json>,
    setUpMsgs: seq<Json>,
    externals: seq<External<Json>>)

  /** Resolving every method of a contract type against the trait defaults. */
  function Describe(o: Overrides, snake: string -> string): (c: Contract)
    ensures c.display == o.display && c.admin == o.admin
    ensures c.name == Name(o) && c.binName == BinName(o, snake)
  {
    Contract(
      o.display, Name(o), BinName(o, snake), o.admin,
      InstantiateMsg(o), Instantiate(o),
      o.migrateMsg.GetOr(None), Interactive(o.migrate),
      o.setConfigMsg.GetOr(None), o.setUpMsgs.GetOr([]), o.externals.GetOr([]))
  }

  /**
   * A contract type that overrides nothing is named by its display form, is
   * built from `contracts/<name>` into the snake case of that name, has no
   * message of its own for any stage, and every interactive method reports
   * `TraitNotImplemented`.
   */
  lemma BareDefaults(display: string, admin: string, snake: string -> string)
    ensures var o := Bare(display, admin);
      && Name(o) == display && PackageId(o) == display
      && BinName(o, snake) == snake(display)
      && ContractPath(o) == Path(false, ["contracts", display])
      && Instantiate(o) == Err(TraitNotImplemented)
      && Interactive(o.execute) == Err(TraitNotImplemented)
      && Interactive(o.query) == Err(TraitNotImplemented)
      && Interactive(o.migrate) == Err(TraitNotImplemented)
      && Interactive(o.cw20Send) == Err(TraitNotImplemented)
    ensures var c := Describe(Bare(display, admin), snake);
      && c.instantiateMsg == None && c.migrateMsg == None && c.setConfigMsg == None
      && c.setUpMsgs == [] && c.externals == []
  {
  }

  /** Without its own `instantiate_msg`, a contract has a preprogrammed message exactly when interactive instantiation succeeds, and it is that message. */
  lemma DefaultInstantiateMsg(o: Overrides)
    requires o.instantiateMsg.None?
    ensures InstantiateMsg(o).Some? <==> Instantiate(o).Ok?
    ensures InstantiateMsg(o).Some? ==> InstantiateMsg(o).value == Instantiate(o).value
  {
  }

  /** `package_id` follows `name`, and `bin_name` follows `package_id`, unless overridden themselves. */
  lemma NamesFollowName(o: Overrides, snake: string -> string)
    requires o.packageId.None? && o.binName.None?
    ensures PackageId(o) == Name(o) && BinName(o, snake) == snake(Name(o))
    ensures o.path.None? ==> ContractPath(o).parts == ["contracts", Name(o)]
  {
  }
}
