/** The debug session set-up of the extension: filling a default attach
    configuration, normalising the configured projects, launching the game
    when asked to, and turning the launch outcome into the adapter the
    session runs. */
module Activation {
  import opened Wrappers
  import opened Text
  import opened Paths
  import opened Game
  import opened CommandLine
  import opened Launcher
  import Protocol

  const NO_PROJECT := "No project path provided."
  const LAUNCH_FAILED := "'gzdoom' failed to launch."
  const ARCHIVE_REQUIRED := "Project archive path is required."
  const MULTIPLE_GAMES := "Multiple gzdoom instances are running, shut them down and try again."
  /** Node's message when `path.join` is given `undefined`. */
  const JOIN_UNDEFINED := "The \"path\" argument must be of type string. Received undefined"

  function MissingArchiveMessage(archive: string): string {
    "Project archive path '" + archive + "' does not exist."
  }

  /** The fields of a `gzdoom` debug configuration the set-up reads or
      writes; an absent field is `None`. */
  datatype Config = Config(
    debugType: Option<string>,
    request: Option<string>,
    name: Option<string>,
    port: Option<int>,
    projects: Option<seq<ProjectEntry>>,
    cwd: Option<string>,
    gzdoomPath: Option<string>,
    iwad: string,
    mapName: Option<string>,
    configPath: Option<string>,
    additionalArgs: Option<seq<string>>,
    noop: bool,
    startNow: bool,
    consoleLogLevel: Option<string>)

  /** What the file system says about a path. */
  datatype FileKind = Directory | RegularFile | Absent

  /** The session's surroundings: its workspace folder, the first folder of
      the workspace, and the file system. */
  datatype Workspace = Workspace(sessionFolder: Option<string>, firstFolder: Option<string>, kind: string -> FileKind)

  /** The adapter handed back: the in-process proxy, the no-op executable, or
      an exception. */
  datatype Descriptor = InlineAdapter | NoopExecutable | Thrown(message: string)

  /** The result of a session set-up, with the error messages shown to the
      user and the command the game was launched with. */
  datatype Session = Session(descriptor: Descriptor, shown: seq<string>, launchCommand: Option<LaunchCommand>)

  // ---- resolveDebugConfiguration ------------------------------------------

  /** The editor languages for which an empty configuration is filled in. */
  predicate GameLanguage(language: Option<string>) {
    language == Some("zscript") || language == Some("acs") || language == Some("decorate")
  }

  /** An attach configuration is filled in when type, request and name are
      all missing or empty and the active editor shows a game language. */
  predicate FillsDefaults(c: Config, language: Option<string>) {
    !Protocol.Truthy(c.debugType) && !Protocol.Truthy(c.request) && !Protocol.Truthy(c.name) && GameLanguage(language)
  }

  /** `resolveDebugConfiguration` on the configuration's value. */
  function Resolve(c: Config, language: Option<string>): (r: Config)
    ensures FillsDefaults(c, language) ==>
      r.debugType == Some("gzdoom") && r.name == Some("Attach") && r.request == Some("attach")
      && r.port == Some(DEFAULT_PORT) && r.projects == Some([PathString("${workspaceFolder}")])
    ensures !FillsDefaults(c, language) ==> r == c
  {
    if FillsDefaults(c, language) then
      c.(debugType := Some("gzdoom"), name := Some("Attach"), request := Some("attach"),
         port := Some(DEFAULT_PORT), projects := Some([PathString("${workspaceFolder}")]))
    else c
  }

  /** Resolving twice changes nothing more: a filled configuration has a
      type, and only the five filled fields ever change. */
  lemma {:induction false} ResolveIdempotent(c: Config, language: Option<string>)
    ensures Resolve(Resolve(c, language), language) == Resolve(c, language)
    ensures Resolve(c, language) == c.(debugType := Resolve(c, language).debugType, name := Resolve(c, language).name,
                                       request := Resolve(c, language).request, port := Resolve(c, language).port,
                                       projects := Resolve(c, language).projects)
  {
  }

  /** The configuration object a session is started with. */
  class DebugConfiguration {
    var debugType: Option<string>
    var request: Option<string>
    var name: Option<string>
    var port: Option<int>
    var projects: Option<seq<ProjectEntry>>
    var cwd: Option<string>
    var gzdoomPath: Option<string>
    var iwad: string
    var mapName: Option<string>
    var configPath: Option<string>
    var additionalArgs: Option<seq<string>>
    var noop: bool
    var startNow: bool
    var consoleLogLevel: Option<string>

    function Snapshot(): Config
      reads this
    {
      Config(debugType, request, name, port, projects, cwd, gzdoomPath, iwad, mapName, configPath,
             additionalArgs, noop, startNow, consoleLogLevel)
    }

    constructor (c: Config)
      ensures Snapshot() == c
    {
      debugType, request, name, port, projects := c.debugType, c.request, c.name, c.port, c.projects;
      cwd, gzdoomPath, iwad, mapName, configPath := c.cwd, c.gzdoomPath, c.iwad, c.mapName, c.configPath;
      additionalArgs, noop, startNow, consoleLogLevel := c.additionalArgs, c.noop, c.startNow, c.consoleLogLevel;
    }
  }

  /** `resolveDebugConfiguration`: fills the configuration in place and
      returns it. */
  method ResolveDebugConfiguration(config: DebugConfiguration, language: Option<string>) returns (r: DebugConfiguration)
    modifies config
    ensures r == config
    ensures config.Snapshot() == Resolve(old(config.Snapshot()), language)
  {
    if !Protocol.Truthy(config.debugType) && !Protocol.Truthy(config.request) && !Protocol.Truthy(config.name) {
      if language == Some("zscript") || language == Some("acs") || language == Some("decorate") {
        config.debugType := Some("gzdoom");
        config.name := Some("Attach");
        config.request := Some("attach");
        config.port := Some(DEFAULT_PORT);
        config.projects := Some([PathString("${workspaceFolder}")]);
      }
    }
    return config;
  }

  // ---- project normalisation ----------------------------------------------

  /** `options.port || DEFAULT_PORT`. */
  function PortOr(port: Option<int>): (p: int)
    ensures p != 0
    ensures port.Some? && port.value != 0 ==> p == port.value
  {
    if port.Some? && port.value != 0 then port.value else DEFAULT_PORT
  }

  /** The archive a project was given, or its path when none was. */
  function WithArchive(p: ProjectEntry): (r: ProjectEntry)
    ensures r.ProjectItem?
    ensures p.PathString? ==> r == ProjectItem(p.s, p.s)
    ensures p.ProjectItem? ==> r.path == p.path && (p.archive != "" ==> r.archive == p.archive)
    ensures r.archive == "" ==> r.path == ""
  {
    match p
    case PathString(s) => ProjectItem(s, s)
    case ProjectItem(path, archive) => ProjectItem(path, if archive != "" then archive else path)
  }

  /** One project of the `projects.map` in `createDebugAdapterDescriptor`: a
      relative archive other than the working directory is joined onto it,
      which throws when there is no working directory. */
  function NormalizeProject(p: ProjectEntry, cwd: Option<string>): (r: Result<ProjectEntry>)
    ensures r.Err? <==> cwd.None? && !IsAbsolute(WithArchive(p).archive)
    ensures r.Err? ==> r.error == JOIN_UNDEFINED
    ensures r.Ok? ==> r.value.ProjectItem? && r.value.path == WithArchive(p).path
    ensures r.Ok? && (IsAbsolute(WithArchive(p).archive) || cwd == Some(WithArchive(p).archive)) ==> r.value == WithArchive(p)
    ensures r.Ok? && cwd.Some? && IsAbsolute(cwd.value) ==> IsAbsolute(r.value.archive) || r.value.archive == cwd.value
  {
    var item := WithArchive(p);
    if !IsAbsolute(item.archive) && Some(item.archive) != cwd then
      if cwd.None? then Err(JOIN_UNDEFINED)
      else Ok(item.(archive := Join(cwd.value, item.archive)))
    else Ok(item)
  }

  /** `projects.map(...)`: the first project that throws ends the map. */
  function NormalizeProjects(ps: seq<ProjectEntry>, cwd: Option<string>): (r: Result<seq<ProjectEntry>>)
    ensures r.Ok? <==> forall i :: 0 <= i < |ps| ==> NormalizeProject(ps[i], cwd).Ok?
    ensures r.Ok? ==> |r.value| == |ps| && forall i :: 0 <= i < |ps| ==> r.value[i] == NormalizeProject(ps[i], cwd).value
    ensures r.Err? ==> r.error == JOIN_UNDEFINED
  {
    if ps == [] then Ok([])
    else
      var head := NormalizeProject(ps[0], cwd);
      var tail := NormalizeProjects(ps[1..], cwd);
      assert forall i :: 1 <= i < |ps| ==> ps[i] == ps[1..][i - 1];
      if head.Err? then Err(head.error)
      else if tail.Err? then Err(tail.error)
      else Ok([head.value] + tail.value)
  }

  /** A project's archive as the launch reads it (`project?.archive || ''`). */
  function ArchiveOf(p: ProjectEntry): string {
    if p.ProjectItem? then p.archive else ""
  }

  /** The pwads handed to the launcher: the archives in configuration order. */
  function Archives(ps: seq<ProjectEntry>): (r: seq<string>)
    ensures |r| == |ps| && forall i :: 0 <= i < |ps| ==> r[i] == ArchiveOf(ps[i])
  {
    seq(|ps|, i requires 0 <= i < |ps| => ArchiveOf(ps[i]))
  }

  /** The first project whose archive is neither a directory nor a file, or
      the number of projects. */
  function FirstMissing(ps: seq<ProjectEntry>, kind: string -> FileKind): (k: nat)
    ensures k <= |ps|
    ensures forall j :: 0 <= j < k ==> kind(ArchiveOf(ps[j])) != Absent
    ensures k < |ps| ==> kind(ArchiveOf(ps[k])) == Absent
  {
    if ps == [] then 0
    else if kind(ArchiveOf(ps[0])) == Absent then 0
    else
      var k := FirstMissing(ps[1..], kind);
      assert forall j :: 1 <= j < |ps| ==> ps[j] == ps[1..][j - 1];
      k + 1
  }

  // ---- the archive fix-up -----------------------------------------------

  /** The last loop of `createDebugAdapterDescriptor` on one project: an
      archive that is its project's path or a directory gets a trailing '/',
      any other archive is cut to its base name. A missing archive throws. */
  function FixArchive(p: ProjectEntry, kind: string -> FileKind): (r: Result<ProjectEntry>)
    ensures r.Err? <==> p.PathString? || p.archive == ""
    ensures r.Err? ==> r.error == ARCHIVE_REQUIRED
    ensures r.Ok? ==> r.value.ProjectItem? && r.value.path == p.path
    ensures r.Ok? && (p.archive == p.path || kind(p.archive) == Directory) ==>
      EndsWith(r.value.archive, "/") && StartsWith(r.value.archive, p.archive) && |r.value.archive| <= |p.archive| + 1
    ensures r.Ok? && p.archive != p.path && kind(p.archive) != Directory ==>
      r.value.archive == Basename(p.archive) && '/' !in r.value.archive
  {
    if p.PathString? || p.archive == "" then Err(ARCHIVE_REQUIRED)
    else if p.archive == p.path || kind(p.archive) == Directory then
      Ok(p.(archive := if EndsWith(p.archive, "/") then p.archive else p.archive + "/"))
    else
      var b := Basename(p.archive);
      assert '/' !in b by {
        var c := Components(p.archive);
        if c != [] {
          assert b == c[|c| - 1];
        }
      }
      Ok(p.(archive := b))
  }

  /** A directory archive fixed once is fixed: a second pass leaves it. */
  lemma {:induction false} FixArchiveSettles(p: ProjectEntry, kind: string -> FileKind)
    requires FixArchive(p, kind).Ok? && (p.archive == p.path || kind(p.archive) == Directory)
    requires kind(FixArchive(p, kind).value.archive) == Directory
    ensures FixArchive(FixArchive(p, kind).value, kind) == FixArchive(p, kind)
  {
  }

  /** The first project whose archive fix-up throws, or the number of
      projects. */
  function FirstUnfixable(ps: seq<ProjectEntry>, kind: string -> FileKind): (k: nat)
    ensures k <= |ps|
    ensures forall j :: 0 <= j < k ==> FixArchive(ps[j], kind).Ok?
    ensures k < |ps| ==> FixArchive(ps[k], kind).Err?
  {
    if ps == [] then 0
    else if FixArchive(ps[0], kind).Err? then 0
    else
      var k := FirstUnfixable(ps[1..], kind);
      assert forall j :: 1 <= j < |ps| ==> ps[j] == ps[1..][j - 1];
      k + 1
  }

  /** The projects after the loop has fixed the first `n` of them. */
  function FixedUpTo(ps: seq<ProjectEntry>, kind: string -> FileKind, n: nat): (r: seq<ProjectEntry>)
    requires n <= |ps| && forall j :: 0 <= j < n ==> FixArchive(ps[j], kind).Ok?
    ensures |r| == |ps|
    ensures forall j :: 0 <= j < n ==> r[j] == FixArchive(ps[j], kind).value
    ensures r[n..] == ps[n..]
  {
    seq(|ps|, j requires 0 <= j < |ps| => if j < n then FixArchive(ps[j], kind).value else ps[j])
  }

  // ---- createDebugAdapterDescriptor ---------------------------------------

  /** The configuration after the defaults of `createDebugAdapterDescriptor`:
      the workspace folder as the only project when none is configured, the
      default port for a missing or zero port, and the workspace's first
      folder as the working directory when none is configured. */
  /** What the `map` callback leaves in the configured array itself. A
      string entry is replaced only in the callback's local variable, so the
      array keeps the string; a `ProjectItem` is rewritten in place, its
      archive defaulted and then joined. The first project that throws has
      had its archive defaulted already, and the projects after it are not
      visited. `RewrittenAt` states this index by index. */
  function Rewritten(ps: seq<ProjectEntry>, cwd: Option<string>): (r: seq<ProjectEntry>)
    ensures |r| == |ps|
  {
    if ps == [] then []
    else
      var head := NormalizeProject(ps[0], cwd);
      var h := if ps[0].PathString? then ps[0] else if head.Ok? then head.value else WithArchive(ps[0]);
      [h] + if head.Err? then ps[1..] else Rewritten(ps[1..], cwd)
  }

  /** No project before index `i` throws. */
  predicate NormalizedBefore(ps: seq<ProjectEntry>, cwd: Option<string>, i: nat)
    requires i <= |ps|
  {
    forall j :: 0 <= j < i ==> NormalizeProject(ps[j], cwd).Ok?
  }

  /** Entry `i` of the array after the `map`: a string is kept; a
      `ProjectItem` the callback reaches is normalised, or only defaulted
      when it throws; an entry after a throw is kept. */
  lemma {:induction false} RewrittenAt(ps: seq<ProjectEntry>, cwd: Option<string>, i: nat)
    requires i < |ps|
    ensures ps[i].PathString? ==> Rewritten(ps, cwd)[i] == ps[i]
    ensures ps[i].ProjectItem? && NormalizedBefore(ps, cwd, i) ==>
      Rewritten(ps, cwd)[i] == if NormalizeProject(ps[i], cwd).Ok? then NormalizeProject(ps[i], cwd).value else WithArchive(ps[i])
    ensures !NormalizedBefore(ps, cwd, i) ==> Rewritten(ps, cwd)[i] == ps[i]
  {
    if i > 0 {
      assert ps[1..][i - 1] == ps[i];
      if NormalizeProject(ps[0], cwd).Ok? {
        RewrittenAt(ps[1..], cwd, i - 1);
        assert NormalizedBefore(ps, cwd, i) <==> NormalizedBefore(ps[1..], cwd, i - 1) by {
          assert forall j :: 1 <= j < i ==> ps[j] == ps[1..][j - 1];
        }
      } else {
        assert !NormalizedBefore(ps, cwd, i);
      }
    }
  }

  /** When no project throws, every `ProjectItem` in the configured array is
      the normalised project the `map` returns at its index. */
  lemma {:induction false} RewrittenNormalized(ps: seq<ProjectEntry>, cwd: Option<string>)
    requires NormalizeProjects(ps, cwd).Ok?
    ensures forall i :: 0 <= i < |ps| ==>
      Rewritten(ps, cwd)[i] == if ps[i].PathString? then ps[i] else NormalizeProjects(ps, cwd).value[i]
  {
    forall i | 0 <= i < |ps|
      ensures Rewritten(ps, cwd)[i] == if ps[i].PathString? then ps[i] else NormalizeProjects(ps, cwd).value[i]
    {
      RewrittenAt(ps, cwd, i);
    }
  }

  function WithDefaults(c: Config, env: Workspace): Config
    requires c.projects.Some? || env.sessionFolder.Some?
  {
    c.(projects := if c.projects.Some? then c.projects
                   else Some([ProjectItem(env.sessionFolder.value, env.sessionFolder.value)]),
       port := Some(PortOr(c.port)),
       cwd := if Protocol.Truthy(c.cwd) then c.cwd else env.firstFolder)
  }

  /** The set-up before any launch: the defaults, the normalised projects,
      and the check that there is at least one. */
  function Prepared(c: Config, env: Workspace): (r: (Result<seq<ProjectEntry>>, Config))
    ensures r.0.Ok? ==> |r.0.value| > 0 && r.1.port == Some(PortOr(c.port))
  {
    if c.projects.None? && env.sessionFolder.None? then (Err(NO_PROJECT), c)
    else
      var c0 := WithDefaults(c, env);
      var normalized := NormalizeProjects(c0.projects.value, c0.cwd);
      var c1 := c0.(projects := Some(Rewritten(c0.projects.value, c0.cwd)));
      if normalized.Err? then (Err(normalized.error), c1)
      else if |normalized.value| == 0 then (Err(NO_PROJECT), c1)
      else (normalized, c1.(startNow := true, consoleLogLevel := Some("debug")))
  }

  /** After a successful set-up the configuration holds the array as the
      `map` left it: strings as configured, and every `ProjectItem` the
      normalised project at its index. */
  lemma {:induction false} PreparedProjects(c: Config, env: Workspace)
    ensures var r := Prepared(c, env);
      r.0.Ok? ==>
        var configured := WithDefaults(c, env).projects.value;
        r.1.projects.Some? && |r.1.projects.value| == |configured| == |r.0.value|
        && forall i :: 0 <= i < |configured| ==>
             r.1.projects.value[i] == if configured[i].PathString? then configured[i] else r.0.value[i]
  {
    if c.projects.Some? || env.sessionFolder.Some? {
      var c0 := WithDefaults(c, env);
      if NormalizeProjects(c0.projects.value, c0.cwd).Ok? {
        RewrittenNormalized(c0.projects.value, c0.cwd);
      }
    }
  }

  /** `createDebugAdapterDescriptor`. `runLauncher` is the launcher's
      verdict on a launch command; `gameReady` is what `ensureGameRunning`
      reports. */
  function Describe(c: Config, env: Workspace, runLauncher: LaunchCommand -> DebugLaunchState, gameReady: bool): (Session, Config) {
    var prepared := Prepared(c, env);
    if prepared.0.Err? then (Session(Thrown(prepared.0.error), [], None), prepared.1)
    else LaunchOrAttach(prepared.1, prepared.0.value, env, runLauncher, gameReady)
  }

  /** The launch, when the request is one, and what follows it. */
  function LaunchOrAttach(c: Config, ps: seq<ProjectEntry>, env: Workspace,
                          runLauncher: LaunchCommand -> DebugLaunchState, gameReady: bool): (Session, Config)
    requires c.port.Some?
  {
    if c.request == Some("launch") then
      var k := FirstMissing(ps, env.kind);
      if k < |ps| then (Session(NoopExecutable, [MissingArchiveMessage(ArchiveOf(ps[k]))], None), c.(noop := true))
      else
        var command := LaunchCommandFor(c.gzdoomPath, c.iwad, Archives(ps), c.port.value, c.mapName,
                                        c.configPath, c.additionalArgs, c.cwd);
        Finish(c, ps, env.kind, runLauncher(command), gameReady, Some(command))
    else Finish(c, ps, env.kind, Success, gameReady, None)
  }

  /** The launch outcome, the game check, and the archive fix-up. */
  function Finish(c: Config, ps: seq<ProjectEntry>, kind: string -> FileKind, launched: DebugLaunchState,
                  gameReady: bool, command: Option<LaunchCommand>): (Session, Config)
  {
    if launched != Success then
      if launched == Cancelled then (Session(NoopExecutable, [], command), c.(noop := true))
      else (Session(Thrown(LAUNCH_FAILED), if launched == MultipleGamesRunning then [MULTIPLE_GAMES] else [], command), c)
    else if !gameReady then (Session(NoopExecutable, [], command), c.(noop := true))
    else
      var k := FirstUnfixable(ps, kind);
      if k < |ps| then (Session(Thrown(ARCHIVE_REQUIRED), [], command), c.(projects := Some(FixedUpTo(ps, kind, k))))
      else (Session(InlineAdapter, [], command), c.(projects := Some(FixedUpTo(ps, kind, |ps|))))
  }

  /** `createDebugAdapterDescriptor` on the session's configuration object. */
  method CreateDebugAdapterDescriptor(config: DebugConfiguration, env: Workspace,
                                      runLauncher: LaunchCommand -> DebugLaunchState, gameReady: bool)
    returns (s: Session)
    modifies config
    ensures (s, config.Snapshot()) == Describe(old(config.Snapshot()), env, runLauncher, gameReady)
  {
    var prepared := PrepareSession(config, env);
    if prepared.Err? {
      return Session(Thrown(prepared.error), [], None);
    }
    s := LaunchSession(config, prepared.value, env, runLauncher, gameReady);
  }

  /** The defaults and the projects' normalisation, in place. */
  method PrepareSession(config: DebugConfiguration, env: Workspace) returns (r: Result<seq<ProjectEntry>>)
    modifies config
    ensures (r, config.Snapshot()) == Prepared(old(config.Snapshot()), env)
    ensures r.Ok? ==> config.port.Some?
  {
    if config.projects.None? && env.sessionFolder.None? {
      return Err(NO_PROJECT);
    }
    ApplyDefaults(config, env);
    var ps := config.projects.value;
    var normalized := NormalizeProjects(ps, config.cwd);
    config.projects := Some(Rewritten(ps, config.cwd));
    if normalized.Err? {
      return Err(normalized.error);
    }
    if |normalized.value| == 0 {
      return Err(NO_PROJECT);
    }
    config.startNow, config.consoleLogLevel := true, Some("debug");
    return normalized;
  }

  /** The session folder as the project, the default port, and the first
      workspace folder as `cwd`, each only when not configured. */
  method ApplyDefaults(config: DebugConfiguration, env: Workspace)
    requires config.projects.Some? || env.sessionFolder.Some?
    modifies config
    ensures config.Snapshot() == WithDefaults(old(config.Snapshot()), env)
  {
    if config.projects.None? {
      config.projects := Some([ProjectItem(env.sessionFolder.value, env.sessionFolder.value)]);
    }
    config.port := Some(PortOr(config.port));
    if !Protocol.Truthy(config.cwd) {
      config.cwd := env.firstFolder;
    }
  }

  /** The index of the first project whose archive does not exist, found by
      the loop that returns the no-op adapter. */
  method FindMissingArchive(ps: seq<ProjectEntry>, kind: string -> FileKind) returns (k: nat)
    ensures k == FirstMissing(ps, kind)
  {
    for i := 0 to |ps|
      invariant forall j :: 0 <= j < i ==> kind(ArchiveOf(ps[j])) != Absent
    {
      if kind(ArchiveOf(ps[i])) == Absent {
        assert FirstMissing(ps, kind) == i;
        return i;
      }
    }
    assert FirstMissing(ps, kind) == |ps|;
    return |ps|;
  }

  /** The launch, the outcome handling and the archive fix-up. */
  method LaunchSession(config: DebugConfiguration, ps: seq<ProjectEntry>, env: Workspace,
                       runLauncher: LaunchCommand -> DebugLaunchState, gameReady: bool)
    returns (s: Session)
    requires config.port.Some?
    modifies config
    ensures (s, config.Snapshot()) == LaunchOrAttach(old(config.Snapshot()), ps, env, runLauncher, gameReady)
  {
    var launched := Success;
    var command: Option<LaunchCommand> := None;
    if config.request == Some("launch") {
      var k := FindMissingArchive(ps, env.kind);
      if k < |ps| {
        config.noop := true;
        return Session(NoopExecutable, [MissingArchiveMessage(ArchiveOf(ps[k]))], None);
      }
      var launchCommand := GetLaunchCommand(config.gzdoomPath, config.iwad, Archives(ps), config.port.value,
                                            config.mapName, config.configPath, config.additionalArgs, config.cwd);
      command := Some(launchCommand);
      launched := runLauncher(launchCommand);
    }
    assert LaunchOrAttach(old(config.Snapshot()), ps, env, runLauncher, gameReady)
      == Finish(config.Snapshot(), ps, env.kind, launched, gameReady, command);
    s := FinishSession(config, ps, env.kind, launched, gameReady, command);
  }

  /** The handling of the launch outcome and of `ensureGameRunning`. */
  method FinishSession(config: DebugConfiguration, ps: seq<ProjectEntry>, kind: string -> FileKind,
                       launched: DebugLaunchState, gameReady: bool, command: Option<LaunchCommand>)
    returns (s: Session)
    modifies config
    ensures (s, config.Snapshot()) == Finish(old(config.Snapshot()), ps, kind, launched, gameReady, command)
  {
    if launched != Success {
      if launched == Cancelled {
        config.noop := true;
        return Session(NoopExecutable, [], command);
      }
      var shown: seq<string> := [];
      if launched == MultipleGamesRunning {
        shown := [MULTIPLE_GAMES];
      }
      return Session(Thrown(LAUNCH_FAILED), shown, command);
    } else if !gameReady {
      config.noop := true;
      return Session(NoopExecutable, [], command);
    }
    config.projects := Some(ps);
    s := FixArchives(config, kind, command);
  }

  /** The archive loop: each project's archive is rewritten in place, and the
      first project without an archive throws. */
  method FixArchives(config: DebugConfiguration, kind: string -> FileKind, command: Option<LaunchCommand>)
    returns (s: Session)
    requires config.projects.Some?
    modifies config
    ensures var ps := old(config.projects.value);
      var k := FirstUnfixable(ps, kind);
      s == Session(if k < |ps| then Thrown(ARCHIVE_REQUIRED) else InlineAdapter, [], command)
      && config.Snapshot() == old(config.Snapshot()).(projects := Some(FixedUpTo(ps, kind, k)))
  {
    ghost var ps := config.projects.value;
    ghost var k := FirstUnfixable(ps, kind);
    var i := 0;
    while i < |config.projects.value|
      invariant i <= |ps|
      invariant forall j :: 0 <= j < i ==> FixArchive(ps[j], kind).Ok?
      invariant config.Snapshot() == old(config.Snapshot()).(projects := Some(FixedUpTo(ps, kind, i)))
      invariant |config.projects.value| == |ps|
      decreases |ps| - i
    {
      var project := config.projects.value[i];
      assert project == ps[i];
      if project.PathString? || project.archive == "" {
        assert k == i;
        return Session(Thrown(ARCHIVE_REQUIRED), [], command);
      }
      var archive := project.archive;
      if project.archive == project.path || kind(project.archive) == Directory {
        if !EndsWith(archive, "/") {
          archive := archive + "/";
        }
      } else {
        archive := Basename(archive);
      }
      config.projects := Some(config.projects.value[i := project.(archive := archive)]);
      assert config.projects.value == FixedUpTo(ps, kind, i + 1);
      i := i + 1;
    }
    assert k == |ps|;
    return Session(InlineAdapter, [], command);
  }

  // ---- properties ----------------------------------------------------------

  /** 'No project path provided.' is thrown exactly when no project is
      configured and the session has no workspace folder, or the configured
      list is empty. */
  lemma {:induction false} NoProjectPath(c: Config, env: Workspace, runLauncher: LaunchCommand -> DebugLaunchState, gameReady: bool)
    ensures Describe(c, env, runLauncher, gameReady).0.descriptor == Thrown(NO_PROJECT)
      <==> (c.projects.None? && env.sessionFolder.None?) || c.projects == Some([])
  {
    var prepared := Prepared(c, env);
    if prepared.0.Ok? {
      OnlySetUpErrorsBeforeLaunch(prepared.1, prepared.0.value, env, runLauncher, gameReady);
    }
  }

  /** A session that neither gets the proxy nor reaches the archive fix-up
      (a failed set-up, a missing archive, a cancelled or failed launch, a
      game that is not running) leaves the configuration holding the array
      as the `map` left it. */
  lemma {:induction false} UnlaunchedKeepsRewritten(c: Config, env: Workspace,
                                                    runLauncher: LaunchCommand -> DebugLaunchState, gameReady: bool)
    requires c.projects.Some? || env.sessionFolder.Some?
    ensures var s := Describe(c, env, runLauncher, gameReady);
      var c0 := WithDefaults(c, env);
      s.0.descriptor != InlineAdapter && s.0.descriptor != Thrown(ARCHIVE_REQUIRED) ==>
        s.1.projects == Some(Rewritten(c0.projects.value, c0.cwd))
  {
    var prepared := Prepared(c, env);
    if prepared.0.Ok? {
      UnlaunchedKeepsProjects(prepared.1, prepared.0.value, env, runLauncher, gameReady);
    }
  }

  /** The same past the set-up: only the fix-up changes the projects. */
  lemma {:induction false} UnlaunchedKeepsProjects(c: Config, ps: seq<ProjectEntry>, env: Workspace,
                                                   runLauncher: LaunchCommand -> DebugLaunchState, gameReady: bool)
    requires c.port.Some?
    ensures var s := LaunchOrAttach(c, ps, env, runLauncher, gameReady);
      s.0.descriptor != InlineAdapter && s.0.descriptor != Thrown(ARCHIVE_REQUIRED) ==> s.1.projects == c.projects
  {
    if c.request == Some("launch") && FirstMissing(ps, env.kind) == |ps| {
      var command := LaunchCommandFor(c.gzdoomPath, c.iwad, Archives(ps), c.port.value, c.mapName,
                                      c.configPath, c.additionalArgs, c.cwd);
      UnfixedKeepsProjects(c, ps, env.kind, runLauncher(command), gameReady, Some(command));
    } else if c.request != Some("launch") {
      UnfixedKeepsProjects(c, ps, env.kind, Success, gameReady, None);
    }
  }

  lemma {:induction false} UnfixedKeepsProjects(c: Config, ps: seq<ProjectEntry>, kind: string -> FileKind,
                                                launched: DebugLaunchState, gameReady: bool, command: Option<LaunchCommand>)
    ensures var s := Finish(c, ps, kind, launched, gameReady, command);
      s.0.descriptor != InlineAdapter && s.0.descriptor != Thrown(ARCHIVE_REQUIRED) ==> s.1.projects == c.projects
  {
  }

  /** Past the set-up, the only exceptions are a failed launch and a missing
      archive. */
  lemma {:induction false} OnlySetUpErrorsBeforeLaunch(c: Config, ps: seq<ProjectEntry>, env: Workspace,
                                    runLauncher: LaunchCommand -> DebugLaunchState, gameReady: bool)
    requires c.port.Some?
    ensures var d := LaunchOrAttach(c, ps, env, runLauncher, gameReady).0.descriptor;
      d.Thrown? ==> d.message == LAUNCH_FAILED || d.message == ARCHIVE_REQUIRED
  {
  }

  /** A launch request with an archive that is neither a directory nor a
      file ends in the no-op adapter before anything is launched. */
  lemma {:induction false} MissingArchiveStopsLaunch(c: Config, env: Workspace, runLauncher: LaunchCommand -> DebugLaunchState, gameReady: bool)
    requires c.projects.Some? || env.sessionFolder.Some?
    requires c.request == Some("launch")
    requires var c1 := WithDefaults(c, env);
      var normalized := NormalizeProjects(c1.projects.value, c1.cwd);
      normalized.Ok? && exists i :: 0 <= i < |normalized.value| && env.kind(ArchiveOf(normalized.value[i])) == Absent
    ensures var s := Describe(c, env, runLauncher, gameReady);
      s.0.descriptor == NoopExecutable && s.0.launchCommand.None? && s.1.noop && |s.0.shown| == 1
  {
    var c1 := WithDefaults(c, env);
    var ps := NormalizeProjects(c1.projects.value, c1.cwd).value;
    var i :| 0 <= i < |ps| && env.kind(ArchiveOf(ps[i])) == Absent;
    assert FirstMissing(ps, env.kind) <= i;
  }

  /** The command a session launches with is the one built from its
      configuration and projects. */
  lemma {:induction false} LaunchedCommand(c: Config, ps: seq<ProjectEntry>, env: Workspace,
                        runLauncher: LaunchCommand -> DebugLaunchState, gameReady: bool)
    requires c.port.Some?
    ensures var s := LaunchOrAttach(c, ps, env, runLauncher, gameReady).0;
      s.launchCommand.Some? ==>
        c.request == Some("launch")
        && s.launchCommand.value == LaunchCommandFor(c.gzdoomPath, c.iwad, Archives(ps), c.port.value, c.mapName,
                                                     c.configPath, c.additionalArgs, c.cwd)
  {
  }

  /** The game is launched with the normalised archives as pwads, in
      configuration order, on the configured or default port. */
  lemma {:induction false} PwadsInOrder(c: Config, env: Workspace, runLauncher: LaunchCommand -> DebugLaunchState, gameReady: bool)
    ensures var s := Describe(c, env, runLauncher, gameReady);
      s.0.launchCommand.Some? ==>
        c.request == Some("launch")
        && var ps := Prepared(c, env).0.value;
        var args := s.0.launchCommand.value.args;
        |args| >= 4 + 2 * |ps|
        && args[3] == IntToString(PortOr(c.port))
        && forall i :: 0 <= i < |ps| ==> args[4 + 2 * i] == "-file" && args[5 + 2 * i] == ArchiveOf(ps[i])
  {
    var prepared := Prepared(c, env);
    if prepared.0.Ok? {
      var c1 := prepared.1;
      var ps := prepared.0.value;
      LaunchedCommand(c1, ps, env, runLauncher, gameReady);
      var s := LaunchOrAttach(c1, ps, env, runLauncher, gameReady).0;
      if s.launchCommand.Some? {
        var args := s.launchCommand.value.args;
        assert args[..4][3] == args[3];
      }
    }
  }

  /** The launch outcome decides the session: a cancelled launch is the
      no-op adapter without an exception, several running games show a
      message and throw, any other failure throws. */
  lemma {:induction false} LaunchOutcomes(c: Config, ps: seq<ProjectEntry>, kind: string -> FileKind, launched: DebugLaunchState,
                       gameReady: bool, command: Option<LaunchCommand>)
    ensures var s := Finish(c, ps, kind, launched, gameReady, command).0;
      (launched == Cancelled ==> s.descriptor == NoopExecutable && s.shown == [])
      && (launched != Success && launched != Cancelled ==> s.descriptor == Thrown(LAUNCH_FAILED))
      && (MULTIPLE_GAMES in s.shown <==> launched == MultipleGamesRunning)
      && (s.descriptor == InlineAdapter ==> launched == Success && gameReady)
  {
  }

  /** A session that gets the proxy has every project fixed up: each archive
      ends in '/' or is a bare file name. */
  lemma {:induction false} InlineArchivesFixed(c: Config, env: Workspace, runLauncher: LaunchCommand -> DebugLaunchState, gameReady: bool)
    ensures var s := Describe(c, env, runLauncher, gameReady);
      s.0.descriptor == InlineAdapter ==> s.1.projects.Some? && FixedUp(s.1.projects.value)
  {
    var prepared := Prepared(c, env);
    if prepared.0.Ok? {
      var c1 := prepared.1;
      var ps := prepared.0.value;
      if c1.request == Some("launch") {
        var k := FirstMissing(ps, env.kind);
        if k == |ps| {
          var command := LaunchCommandFor(c1.gzdoomPath, c1.iwad, Archives(ps), c1.port.value, c1.mapName,
                                          c1.configPath, c1.additionalArgs, c1.cwd);
          FinishFixesArchives(c1, ps, env.kind, runLauncher(command), gameReady, Some(command));
        }
      } else {
        FinishFixesArchives(c1, ps, env.kind, Success, gameReady, None);
      }
    }
  }

  /** Every archive ends in '/' or is a bare file name. */
  predicate FixedUp(ps: seq<ProjectEntry>) {
    forall i :: 0 <= i < |ps| ==> ps[i].ProjectItem? && (EndsWith(ps[i].archive, "/") || '/' !in ps[i].archive)
  }

  lemma {:induction false} FinishFixesArchives(c: Config, ps: seq<ProjectEntry>, kind: string -> FileKind, launched: DebugLaunchState,
                            gameReady: bool, command: Option<LaunchCommand>)
    ensures var s := Finish(c, ps, kind, launched, gameReady, command);
      s.0.descriptor == InlineAdapter ==> s.1.projects.Some? && FixedUp(s.1.projects.value)
  {
    var s := Finish(c, ps, kind, launched, gameReady, command);
    if s.0.descriptor == InlineAdapter {
      var fixed := FixedUpTo(ps, kind, |ps|);
      assert s.1.projects == Some(fixed);
      forall i | 0 <= i < |ps|
        ensures fixed[i].ProjectItem? && (EndsWith(fixed[i].archive, "/") || '/' !in fixed[i].archive)
      {
        assert fixed[i] == FixArchive(ps[i], kind).value;
      }
    }
  }
}
