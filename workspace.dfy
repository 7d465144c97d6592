/**
 * `WorkspaceSettings` of wasm-deploy/src/config/workspace_settings.rs: the
 * workspace root and the four paths derived from it, built by `new` and
 * adjusted by by-value builder setters that check the file system.
 */
module Workspace {
  import opened Wrappers
  import opened Types

  datatype WorkspaceSettings = WorkspaceSettings(
    workspaceRoot: Path,
    configPath: Path,
    targetDir: Path,
    deploymentDir: Path,
    artifactsDir: Path)

  /** The layout `new` derives under a root. */
  function Layout(root: Path): (w: WorkspaceSettings)
    ensures w.workspaceRoot == root
    ensures w.configPath == Join(root, [".wasm-deploy", "config.json"])
    ensures w.targetDir == Join(root, ["target"]) && w.deploymentDir == Join(root, ["deployment"])
    ensures w.artifactsDir == Join(root, ["artifacts"])
  {
    WorkspaceSettings(
      root,
      Join(root, [".wasm-deploy", "config.json"]),
      Join(root, ["target"]),
      Join(root, ["deployment"]),
      Join(root, ["artifacts"]))
  }

  /** `WorkspaceSettings::new`: the root must be absolute and must not be a file. */
  function New(root: Path, fs: FileSystem): (r: Result<WorkspaceSettings, DeployError>)
    ensures r.Ok? <==> root.absolute && !fs.IsFile(root)
    ensures !root.absolute ==> r == Err(Bail("workspace root must be an absolute path"))
    ensures root.absolute && fs.IsFile(root) ==> r == Err(Bail("workspace root must be a directory"))
    ensures r.Ok? ==> r.value == Layout(root)
  {
    if !root.absolute then Err(Bail("workspace root must be an absolute path"))
    else if fs.IsFile(root) then Err(Bail("workspace root must be a directory"))
    else Ok(Layout(root))
  }

  /** `set_config_path`: a directory gets `config.json` appended; it never fails. */
  function SetConfigPath(w: WorkspaceSettings, p: Path, fs: FileSystem): (r: Result<WorkspaceSettings, DeployError>)
    ensures r.Ok?
    ensures r.value.configPath == (if fs.IsDir(p) then Join(p, ["config.json"]) else p)
    ensures r.value.(configPath := w.configPath) == w
  {
    Ok(w.(configPath := if fs.IsDir(p) then Join(p, ["config.json"]) else p))
  }

  /** `set_build_dir`: only a directory is accepted. */
  function SetBuildDir(w: WorkspaceSettings, p: Path, fs: FileSystem): (r: Result<WorkspaceSettings, DeployError>)
    ensures r.Ok? <==> fs.IsDir(p)
    ensures r.Ok? ==> r.value.targetDir == p && r.value.(targetDir := w.targetDir) == w
    ensures r.Err? ==> r.error == Bail("target dir must be a directory")
  {
    if !fs.IsDir(p) then Err(Bail("target dir must be a directory")) else Ok(w.(targetDir := p))
  }

  /** `set_deployment_dir`: only a directory is accepted. */
  function SetDeploymentDir(w: WorkspaceSettings, p: Path, fs: FileSystem): (r: Result<WorkspaceSettings, DeployError>)
    ensures r.Ok? <==> fs.IsDir(p)
    ensures r.Ok? ==> r.value.deploymentDir == p && r.value.(deploymentDir := w.deploymentDir) == w
    ensures r.Err? ==> r.error == Bail("deployment dir must be a directory")
  {
    if !fs.IsDir(p) then Err(Bail("deployment dir must be a directory")) else Ok(w.(deploymentDir := p))
  }

  /** `set_artifacts_dir`: only a directory is accepted. */
  function SetArtifactsDir(w: WorkspaceSettings, p: Path, fs: FileSystem): (r: Result<WorkspaceSettings, DeployError>)
    ensures r.Ok? <==> fs.IsDir(p)
    ensures r.Ok? ==> r.value.artifactsDir == p && r.value.(artifactsDir := w.artifactsDir) == w
    ensures r.Err? ==> r.error == Bail("artifacts dir must be a directory")
  {
    if !fs.IsDir(p) then Err(Bail("artifacts dir must be a directory")) else Ok(w.(artifactsDir := p))
  }

  /** `p` lies under `root`: same kind of path, and `root`'s components come first. */
  predicate Under(root: Path, p: Path) {
    p.absolute == root.absolute && |root.parts| < |p.parts| && p.parts[..|root.parts|] == root.parts
  }

  /** Every path `new` derives lies under the root, and the four are pairwise different. */
  lemma NewDerivesUnderRoot(root: Path, fs: FileSystem)
    requires New(root, fs).Ok?
    ensures var w := New(root, fs).value;
      && Under(root, w.configPath) && Under(root, w.targetDir)
      && Under(root, w.deploymentDir) && Under(root, w.artifactsDir)
      && w.configPath != w.targetDir && w.targetDir != w.deploymentDir
      && w.deploymentDir != w.artifactsDir && w.artifactsDir != w.targetDir
  {
    var w := New(root, fs).value;
    var n := |root.parts|;
    assert w.configPath.parts[n] == ".wasm-deploy" && w.targetDir.parts[n] == "target";
    assert w.deploymentDir.parts[n] == "deployment" && w.artifactsDir.parts[n] == "artifacts";
  }
}
