/**
 * The earlier `WorkspaceSettings` of wasm-deploy/src/settings.rs: the same
 * layout, but `new` panics on a relative root and the setters store their
 * argument as given, without looking at the file system.
 */
module Settings {
  import opened Wrappers
  import opened Types
  import opened Workspace

  /** `WorkspaceSettings::new`: a relative root panics; a file is not refused. */
  function New(root: Path): (r: Result<WorkspaceSettings, DeployError>)
    ensures r.Ok? <==> root.absolute
    ensures r.Err? ==> r.error == Panic("Workspace root must be an absolute path")
    ensures r.Ok? ==> r.value.workspaceRoot == root && Under(root, r.value.configPath)
    ensures r.Ok? ==> r.value.configPath.parts == root.parts + [".wasm-deploy", "config.json"]
    ensures r.Ok? ==> r.value.targetDir.parts == root.parts + ["target"]
    ensures r.Ok? ==> r.value.deploymentDir.parts == root.parts + ["deployment"]
    ensures r.Ok? ==> r.value.artifactsDir.parts == root.parts + ["artifacts"]
  {
    if !root.absolute then Err(Panic("Workspace root must be an absolute path")) else Ok(Layout(root))
  }

  /** On an absolute root that is not a file, both versions of `new` agree. */
  lemma NewAgreesWithChecked(root: Path, fs: FileSystem)
    requires root.absolute && !fs.IsFile(root)
    ensures New(root) == Workspace.New(root, fs)
  {
  }

  /** `set_config_path`: stored verbatim, even when it names a directory. */
  function SetConfigPath(w: WorkspaceSettings, p: Path): (r: WorkspaceSettings)
    ensures r.configPath == p && r.(configPath := w.configPath) == w
  {
    w.(configPath := p)
  }

  /** `set_build_dir`: stored verbatim. */
  function SetBuildDir(w: WorkspaceSettings, p: Path): (r: WorkspaceSettings)
    ensures r.targetDir == p && r.(targetDir := w.targetDir) == w
  {
    w.(targetDir := p)
  }

  /** `set_deployment_dir`: stored verbatim. */
  function SetDeploymentDir(w: WorkspaceSettings, p: Path): (r: WorkspaceSettings)
    ensures r.deploymentDir == p && r.(deploymentDir := w.deploymentDir) == w
  {
    w.(deploymentDir := p)
  }

  /** `set_artifacts_dir`: stored verbatim. */
  function SetArtifactsDir(w: WorkspaceSettings, p: Path): (r: WorkspaceSettings)
    ensures r.artifactsDir == p && r.(artifactsDir := w.artifactsDir) == w
  {
    w.(artifactsDir := p)
  }

  /**
   * Where the two versions of the setters part: the unchecked one stores a
   * directory verbatim where the checked one appends `config.json`, and
   * accepts a non-directory that the checked one refuses.
   */
  lemma SettersDifferFromChecked(w: WorkspaceSettings, p: Path, fs: FileSystem)
    ensures fs.IsDir(p) ==> Workspace.SetConfigPath(w, p, fs).value.configPath != SetConfigPath(w, p).configPath
    ensures !fs.IsDir(p) ==> Workspace.SetConfigPath(w, p, fs) == Ok(SetConfigPath(w, p))
    ensures fs.IsDir(p) <==> Workspace.SetBuildDir(w, p, fs) == Ok(SetBuildDir(w, p))
    ensures fs.IsDir(p) <==> Workspace.SetArtifactsDir(w, p, fs) == Ok(SetArtifactsDir(w, p))
  {
    if fs.IsDir(p) {
      assert |Join(p, ["config.json"]).parts| == |p.parts| + 1;
    }
  }
}
