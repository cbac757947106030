/**
 * The snapshot record built by `_workspace()` in nx-workspace.ts.
 *
 * The four awaited foreign calls (`fileExists` twice, `checkIsNxWorkspace`,
 * `getNxWorkspaceConfig`) are not modelled; their results are given as an
 * `Io` value, each of which may reject. Whether building the record inside
 * the `try` throws (for instance in `toWorkspaceFormat`) is one more input.
 * `Compute` returns the settled outcome and the host calls made, in order.
 */
module Workspace {
  import opened Wrappers

  datatype WorkspaceType = Ng | Nx

  /** The format argument passed to `getNxWorkspaceConfig`: 'angularCli' or 'nx'. */
  datatype ConfigFormat = AngularCli | NxFormat

  datatype ProjectConfig = ProjectConfig(root: string)

  /** The workspace configuration after `toWorkspaceFormat`. */
  datatype WorkspaceJson = WorkspaceJson(npmScope: string, projects: map<string, ProjectConfig>, version: int)

  /**
   * What `getNxWorkspaceConfig` resolves with. `appsDir`/`libsDir` are
   * `workspaceConfiguration.workspaceLayout?.appsDir` and `?.libsDir`:
   * `None` when the layout or the key is absent. `formatted` is what
   * `toWorkspaceFormat` makes of the configuration.
   */
  datatype NxConfig = NxConfig(configPath: string, appsDir: Option<string>, libsDir: Option<string>, formatted: WorkspaceJson)

  datatype Layout = Layout(appsDir: string, libsDir: string)

  /** The `NxWorkspace` record handed to every caller of `nxWorkspace`. */
  datatype NxWorkspace = NxWorkspace(
    validWorkspaceJson: bool,
    workspace: WorkspaceJson,
    workspaceType: WorkspaceType,
    configurationFilePath: string,
    workspacePath: string,
    isLerna: bool,
    workspaceLayout: Layout)

  /** Whether building the record inside the `try` completes or throws (with its stringified error). */
  datatype Construction = Constructs | Throws(error: string)

  /** The results the foreign calls of one `_workspace()` run settle with. */
  datatype Io = Io(
    angularJson: Settled<bool>,
    nxWorkspace: Settled<bool>,
    config: Settled<NxConfig>,
    lernaJson: Settled<bool>,
    construction: Construction)

  /** Host calls made by `_workspace()`: the reads, then the diagnostics of the catch block. */
  datatype HostCall =
    | FileExists(dir: string, fileName: string)
    | CheckIsNxWorkspace(dir: string)
    | GetNxWorkspaceConfig(dir: string, format: ConfigFormat, isNxWorkspace: bool)
    | ShowErrorMessage(message: string)
    | AppendLine(line: string)
    | TelemetryException(message: string)
  {
    predicate IsDiagnostic() {
      ShowErrorMessage? || AppendLine? || TelemetryException?
    }
  }

  datatype Computed = Computed(outcome: Settled<NxWorkspace>, calls: seq<HostCall>)

  const InvalidWorkspacePrefix: string := "Invalid workspace: "
  const PackagesDir: string := "packages"

  /** `WorkspaceConfigurationStore.instance.get('nxWorkspacePath', '')`. */
  function StoredPath(stored: Option<string>): string {
    stored.GetOr("")
  }

  function FormatFor(isAngularWorkspace: bool): ConfigFormat {
    if isAngularWorkspace then AngularCli else NxFormat
  }

  /**
   * `configured ?? isLerna ? 'packages' : otherwise`. The conditional binds
   * looser than `??`, so the test is the JavaScript truthiness of
   * `configured ?? isLerna`: a configured string is truthy when non-empty,
   * and when nothing is configured the test is `isLerna`.
   */
  function LayoutDir(configured: Option<string>, isLerna: bool, otherwise: string): (dir: string)
    ensures dir == PackagesDir || dir == otherwise
  {
    var truthy := match configured
      case Some(d) => d != ""
      case None => isLerna;
    if truthy then PackagesDir else otherwise
  }

  /** The record of the `try` block when it completes. */
  function SuccessRecord(path: string, isAngular: bool, config: NxConfig, isLerna: bool): NxWorkspace {
    NxWorkspace(
      true,
      config.formatted,
      if isAngular then Ng else Nx,
      config.configPath,
      path,
      isLerna,
      Layout(LayoutDir(config.appsDir, isLerna, "apps"), LayoutDir(config.libsDir, isLerna, "libs")))
  }

  /** The default record of the catch block. */
  function FallbackRecord(path: string): NxWorkspace {
    NxWorkspace(
      false,
      WorkspaceJson("@nx-console", map[], 2),
      Nx,
      "",
      path,
      false,
      Layout("apps", "libs"))
  }

  /** The catch block's error message, output lines and telemetry record. */
  function Diagnostics(path: string, error: string): seq<HostCall> {
    [ShowErrorMessage(InvalidWorkspacePrefix + path),
     AppendLine(InvalidWorkspacePrefix + path),
     AppendLine(error),
     TelemetryException(error)]
  }

  /** All four awaited reads resolve. */
  predicate ReadsSucceed(io: Io) {
    io.angularJson.Resolved? && io.nxWorkspace.Resolved? && io.config.Resolved? && io.lernaJson.Resolved?
  }

  /**
   * One run of `_workspace()` for the stored path `path`. The reads run one
   * after the other and a rejection ends the run with a rejection: they are
   * outside the `try`. Only building the record is guarded.
   */
  function Compute(path: string, io: Io): (r: Computed)
    ensures r.outcome.Rejected? <==> !ReadsSucceed(io)
    ensures r.outcome.Resolved? ==> r.outcome.value.workspacePath == path
    ensures r.outcome.Resolved? ==> (r.outcome.value.validWorkspaceJson <==> io.construction.Constructs?)
    ensures |r.calls| >= 1 && r.calls[0] == FileExists(path, "angular.json")
  {
    var c0 := [FileExists(path, "angular.json")];
    match io.angularJson
    case Rejected => Computed(Rejected, c0)
    case Resolved(isAngular) =>
      var c1 := c0 + [CheckIsNxWorkspace(path)];
      match io.nxWorkspace
      case Rejected => Computed(Rejected, c1)
      case Resolved(isNx) =>
        var c2 := c1 + [GetNxWorkspaceConfig(path, FormatFor(isAngular), isNx)];
        match io.config
        case Rejected => Computed(Rejected, c2)
        case Resolved(config) =>
          var c3 := c2 + [FileExists(path, "lerna.json")];
          match io.lernaJson
          case Rejected => Computed(Rejected, c3)
          case Resolved(isLerna) =>
            match io.construction
            case Constructs => Computed(Resolved(SuccessRecord(path, isAngular, config, isLerna)), c3)
            case Throws(error) => Computed(Resolved(FallbackRecord(path)), c3 + Diagnostics(path, error))
  }

  /** The reads `_workspace()` makes when all of them resolve, in order. */
  function ReadCalls(path: string, io: Io): seq<HostCall>
    requires ReadsSucceed(io)
  {
    [FileExists(path, "angular.json"),
     CheckIsNxWorkspace(path),
     GetNxWorkspaceConfig(path, FormatFor(io.angularJson.value), io.nxWorkspace.value),
     FileExists(path, "lerna.json")]
  }

  /** A rejected read is not caught: the run rejects, no later read is made and nothing is reported. */
  lemma RejectedReadIsNotCaught(path: string, io: Io)
    requires !ReadsSucceed(io)
    ensures Compute(path, io).outcome == Rejected
    ensures forall i :: 0 <= i < |Compute(path, io).calls| ==> !Compute(path, io).calls[i].IsDiagnostic()
    ensures io.angularJson.Rejected? ==> Compute(path, io).calls == [FileExists(path, "angular.json")]
    ensures io.angularJson.Resolved? && io.nxWorkspace.Rejected? ==> |Compute(path, io).calls| == 2
    ensures io.angularJson.Resolved? && io.nxWorkspace.Resolved? && io.config.Rejected? ==> |Compute(path, io).calls| == 3
    ensures io.angularJson.Resolved? && io.nxWorkspace.Resolved? && io.config.Resolved? ==> |Compute(path, io).calls| == 4
  {
  }

  /** `getNxWorkspaceConfig` is asked for the 'angularCli' format exactly when angular.json exists. */
  lemma ConfigFormatFollowsAngularJson(path: string, io: Io)
    requires io.angularJson.Resolved? && io.nxWorkspace.Resolved?
    ensures |Compute(path, io).calls| >= 3
    ensures Compute(path, io).calls[2].GetNxWorkspaceConfig?
    ensures Compute(path, io).calls[2].dir == path
    ensures Compute(path, io).calls[2].format == AngularCli <==> io.angularJson.value
    ensures Compute(path, io).calls[2].isNxWorkspace == io.nxWorkspace.value
  {
  }

  /** The record when every read resolves and construction completes. */
  lemma SuccessRecordFields(path: string, io: Io)
    requires ReadsSucceed(io) && io.construction.Constructs?
    ensures Compute(path, io).outcome.Resolved?
    ensures var w := Compute(path, io).outcome.value;
      && w.validWorkspaceJson
      && (w.workspaceType == Ng <==> io.angularJson.value)
      && (w.workspaceType == Nx <==> !io.angularJson.value)
      && w.isLerna == io.lernaJson.value
      && w.configurationFilePath == io.config.value.configPath
      && w.workspace == io.config.value.formatted
      && w.workspacePath == path
    ensures Compute(path, io).calls == ReadCalls(path, io)
  {
  }

  /**
   * The layout truth table: a non-empty configured directory yields
   * 'packages' whatever its value, an empty one yields the default, and an
   * absent one yields 'packages' exactly for a lerna workspace.
   */
  lemma LayoutTruthTable(path: string, io: Io)
    requires ReadsSucceed(io) && io.construction.Constructs?
    ensures var w := Compute(path, io).outcome.value;
      var config, lerna := io.config.value, io.lernaJson.value;
      && (w.workspaceLayout.appsDir == PackagesDir || w.workspaceLayout.appsDir == "apps")
      && (w.workspaceLayout.libsDir == PackagesDir || w.workspaceLayout.libsDir == "libs")
      && (config.appsDir.Some? && config.appsDir.value != "" ==> w.workspaceLayout.appsDir == PackagesDir)
      && (config.appsDir == Some("") ==> w.workspaceLayout.appsDir == "apps")
      && (config.appsDir.None? ==> (w.workspaceLayout.appsDir == PackagesDir <==> lerna))
      && (config.libsDir.Some? && config.libsDir.value != "" ==> w.workspaceLayout.libsDir == PackagesDir)
      && (config.libsDir == Some("") ==> w.workspaceLayout.libsDir == "libs")
      && (config.libsDir.None? ==> (w.workspaceLayout.libsDir == PackagesDir <==> lerna))
  {
  }

  /** When construction throws the run still resolves, with the default record and one error report. */
  lemma FallbackOnConstructionFailure(path: string, io: Io)
    requires ReadsSucceed(io) && io.construction.Throws?
    ensures Compute(path, io).outcome.Resolved?
    ensures var w := Compute(path, io).outcome.value;
      && !w.validWorkspaceJson
      && w.workspaceType == Nx
      && w.workspace == WorkspaceJson("@nx-console", map[], 2)
      && w.workspace.projects == map[]
      && w.configurationFilePath == ""
      && !w.isLerna
      && w.workspaceLayout == Layout("apps", "libs")
      && w.workspacePath == path
    ensures Compute(path, io).calls == ReadCalls(path, io) + Diagnostics(path, io.construction.error)
  {
  }

  /** Diagnostics are reported exactly when the default record is returned. */
  lemma DiagnosticsOnlyOnFallback(path: string, io: Io)
    ensures (exists i :: 0 <= i < |Compute(path, io).calls| && Compute(path, io).calls[i].IsDiagnostic())
        <==> (Compute(path, io).outcome.Resolved? && !Compute(path, io).outcome.value.validWorkspaceJson)
  {
    var r := Compute(path, io);
    if ReadsSucceed(io) && io.construction.Throws? {
      assert r.calls[4].IsDiagnostic();
    } else if ReadsSucceed(io) {
      SuccessRecordFields(path, io);
    } else {
      RejectedReadIsNotCaught(path, io);
    }
  }
}
