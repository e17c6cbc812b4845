/**
 * The static build stage: check the project directory, the three tools and
 * the dependency install, merge the public API base into the production
 * environment file, run the build and check that the export directory exists.
 *
 * Tools, files and paths are answered by a Host oracle; the stage's effects
 * are the events it returns, in order.
 */
module Build {
  import opened Effects
  import opened Text
  import opened Config
  import opened BuildEnv

  datatype Host = Host(
    resolve: string -> string,                // Path(s).expanduser(), as a normalised POSIX path
    pathExists: string -> bool,               // Path.exists()
    readText: string -> string,               // Path.read_text() of an existing file
    succeeds: (Command, string) -> bool)      // the command, run in the directory, exits with status 0

  /** pathlib's `dir / name` for a normalised directory path. */
  function JoinPath(dir: string, name: string): string {
    if dir == "." then name else if EndsWith(dir, "/") then dir + name else dir + "/" + name
  }

  const Tools: seq<string> := ["node", "npm", "npx"]

  datatype Step = Step(events: seq<Event>, fault: Option<Fault>)
  datatype BuildOutcome = BuiltAt(outDir: string) | BuildFailed(fault: Fault)
  datatype BuildRun = BuildRun(outcome: BuildOutcome, events: seq<Event>)

  /** A local effect: a command run in `dir`, a file written or a log line. */
  predicate IsLocal(e: Event, dir: string) {
    (e.Run? && e.cwd == dir) || e.WriteText? || e.Log?
  }

  /** All three tools answered their version check in `dir`. */
  predicate ToolsPresent(dir: string, host: Host) {
    forall t :: t in Tools ==> host.succeeds(VersionCheck(t), dir)
  }

  /** The dependency install runs unless it is skipped AND node_modules is already there. */
  function RunsNpmCi(skip: bool, nodeModulesPresent: bool): (run: bool)
    ensures !run <==> skip && nodeModulesPresent
  {
    !skip || !nodeModulesPresent
  }

  /** The position of the first tool whose version check fails, or the number of tools when none does. */
  function FirstMissing(tools: seq<string>, dir: string, host: Host): (k: nat)
    ensures k <= |tools|
    ensures forall j :: 0 <= j < k ==> host.succeeds(VersionCheck(tools[j]), dir)
    ensures k < |tools| ==> !host.succeeds(VersionCheck(tools[k]), dir)
  {
    if tools == [] || !host.succeeds(VersionCheck(tools[0]), dir) then 0
    else 1 + FirstMissing(tools[1..], dir, host)
  }

  /** The version checks of the first `n` tools, in order. */
  predicate ChecksOf(events: seq<Event>, tools: seq<string>, n: nat, dir: string)
    requires n <= |tools|
  {
    |events| == n && forall j :: 0 <= j < n ==> events[j] == Run(VersionCheck(tools[j]), dir)
  }

  /**
   * Checks each tool in turn with `<tool> -v`; the first that fails ends the
   * stage, naming that tool, and no later tool is checked.
   */
  function RequireTools(tools: seq<string>, dir: string, host: Host): (s: Step)
    ensures var k := FirstMissing(tools, dir, host);
      (s.fault.None? <==> k == |tools|)
      && (k < |tools| ==> s.fault == Some(MissingTool(tools[k])))
      && ChecksOf(s.events, tools, if k < |tools| then k + 1 else k, dir)
    ensures s.fault.None? <==> forall t :: t in tools ==> host.succeeds(VersionCheck(t), dir)
    ensures forall e :: e in s.events ==> e.Run? && e.cwd == dir && e.command.VersionCheck?
    ensures s.fault.None? ==> forall t :: t in tools ==> Run(VersionCheck(t), dir) in s.events
  {
    if tools == [] then Step([], None)
    else
      var first := Run(VersionCheck(tools[0]), dir);
      if !host.succeeds(VersionCheck(tools[0]), dir) then Step([first], Some(MissingTool(tools[0])))
      else
        var rest := RequireTools(tools[1..], dir, host);
        assert forall t :: t in tools <==> t == tools[0] || t in tools[1..];
        ChecksCons(rest.events, tools, FirstMissing(tools[1..], dir, host), dir);
        Step([first] + rest.events, rest.fault)
  }

  /** One more check in front of the checks of the remaining tools. */
  lemma ChecksCons(rest: seq<Event>, tools: seq<string>, k: nat, dir: string)
    requires tools != [] && k < |tools|
    requires ChecksOf(rest, tools[1..], k, dir) || (k < |tools| - 1 && ChecksOf(rest, tools[1..], k + 1, dir))
    ensures ChecksOf(rest, tools[1..], k, dir) ==> ChecksOf([Run(VersionCheck(tools[0]), dir)] + rest, tools, k + 1, dir)
    ensures k < |tools| - 1 && ChecksOf(rest, tools[1..], k + 1, dir) ==>
      ChecksOf([Run(VersionCheck(tools[0]), dir)] + rest, tools, k + 2, dir)
  {
    var s := [Run(VersionCheck(tools[0]), dir)] + rest;
    forall j | 1 <= j < |s|
      ensures s[j] == rest[j - 1]
    {
    }
  }

  /** Whether the install runs in `dir`, given the skip flag. */
  predicate InstallsIn(dir: string, skip: bool, host: Host) {
    RunsNpmCi(skip, host.pathExists(JoinPath(dir, "node_modules")))
  }

  /** The three tool checks, then the dependency install when it is due. */
  function EnsureNode(dir: string, skip: bool, host: Host): (s: Step)
    ensures s.fault.None? <==> ToolsPresent(dir, host) && (InstallsIn(dir, skip, host) ==> host.succeeds(NpmCi, dir))
    ensures Run(NpmCi, dir) in s.events <==> ToolsPresent(dir, host) && InstallsIn(dir, skip, host)
    ensures forall e :: e in s.events ==> e.Run? && e.cwd == dir && !e.command.NpmRunBuild?
  {
    var req := RequireTools(Tools, dir, host);
    if req.fault.Some? then req
    else if InstallsIn(dir, skip, host) then
      Step(req.events + [Run(NpmCi, dir)], if host.succeeds(NpmCi, dir) then None else Some(CommandFailed(NpmCi)))
    else req
  }

  function EnvPath(dir: string): string {
    JoinPath(dir, ".env.production")
  }

  /** The environment file as it is before the merge: absent, or its text. */
  function OldEnvFile(dir: string, host: Host): Option<string> {
    if host.pathExists(EnvPath(dir)) then Some(host.readText(EnvPath(dir))) else None
  }

  /** The write of the merged environment file, as the stage performs it. */
  function EnvWrite(dir: string, api: string, host: Host): Event {
    WriteText(EnvPath(dir), MergeBuildEnvAsWritten(OldEnvFile(dir, host), api))
  }

  /** The project directory the stage works in, once NEXTJS_DIR is set. */
  function ProjectDir(env: Env, host: Host): string {
    host.resolve(env.nextjsDir)
  }

  /** NEXTJS_DIR is set and names an existing directory. */
  predicate ProjectFound(env: Env, host: Host) {
    env.nextjsDir != "" && host.pathExists(ProjectDir(env, host))
  }

  function BuildStatic(env: Env, host: Host): (r: BuildRun)
    // a missing or unknown project directory stops the stage before anything runs
    ensures env.nextjsDir == "" ==> r == BuildRun(BuildFailed(MissingSetting("NEXTJS_DIR")), [])
    ensures env.nextjsDir != "" && !ProjectFound(env, host) ==>
      r == BuildRun(BuildFailed(DirNotFound(ProjectDir(env, host))), [])
    // the stage only runs commands in the project directory, writes files and logs
    ensures forall e :: e in r.events ==> IsLocal(e, ProjectDir(env, host))
    // the only file it writes is the merged environment file, and only when there is a value
    ensures forall e :: e in r.events && e.WriteText? ==>
      PublicApi(env) != "" && e == EnvWrite(ProjectDir(env, host), PublicApi(env), host)
  {
    var nd := env.nextjsDir;
    if nd == "" then BuildRun(BuildFailed(MissingSetting("NEXTJS_DIR")), [])
    else
      var dir := host.resolve(nd);
      if !host.pathExists(dir) then BuildRun(BuildFailed(DirNotFound(dir)), [])
      else
        var api := PublicApi(env);
        var warn := if api == "" then [Log(WarnNoPublicApi)] else [];
        var node := EnsureNode(dir, IsTrue(env.skipNpmCi), host);
        if node.fault.Some? then BuildRun(BuildFailed(node.fault.value), warn + node.events)
        else
          var c := Compile(dir, api, host);
          BuildRun(c.outcome, warn + node.events + c.events)
  }

  /**
   * The stage once the tools are in place: the merged environment file when
   * there is a value, the build, and the check for the export directory.
   */
  function Compile(dir: string, api: string, host: Host): (r: BuildRun)
    ensures forall e :: e in r.events ==> IsLocal(e, dir)
    ensures forall e :: e in r.events && e.WriteText? ==> api != "" && e == EnvWrite(dir, api, host)
    ensures Log(WarnNoPublicApi) !in r.events
    ensures Run(NpmRunBuild, dir) in r.events && Run(NpmCi, dir) !in r.events
    ensures r.outcome.BuiltAt? <==> host.succeeds(NpmRunBuild, dir) && host.pathExists(JoinPath(dir, "out"))
    ensures r.outcome.BuiltAt? ==>
      r.outcome.outDir == JoinPath(dir, "out") && (api != "" ==> EnvWrite(dir, api, host) in r.events)
  {
    var write := if api != "" then [EnvWrite(dir, api, host), Log(WroteEnvFile(EnvPath(dir)))] else [];
    var ran := write + [Run(NpmRunBuild, dir)];
    if !host.succeeds(NpmRunBuild, dir) then BuildRun(BuildFailed(CommandFailed(NpmRunBuild)), ran)
    else
      var out := JoinPath(dir, "out");
      if !host.pathExists(out) then BuildRun(BuildFailed(NoExportDir), ran)
      else BuildRun(BuiltAt(out), ran + [Log(Built(out))])
  }

  /** The build stage never calls the storage or CDN provider. */
  lemma BuildCallsNoProvider(env: Env, host: Host)
    ensures ProviderCalls(BuildStatic(env, host).events) == []
    ensures Mutations(BuildStatic(env, host).events) == []
  {
    NoProviderCalls(BuildStatic(env, host).events);
  }

  /** The warning is logged exactly when the project exists and no public API base is known. */
  lemma BuildWarnsIffNoApi(env: Env, host: Host)
    ensures Log(WarnNoPublicApi) in BuildStatic(env, host).events <==> ProjectFound(env, host) && PublicApi(env) == ""
  {
    if ProjectFound(env, host) {
      var dir := ProjectDir(env, host);
      var api := PublicApi(env);
      var warn := if api == "" then [Log(WarnNoPublicApi)] else [];
      var node := EnsureNode(dir, IsTrue(env.skipNpmCi), host);
      assert Log(WarnNoPublicApi) !in node.events;
      var events := BuildStatic(env, host).events;
      if node.fault.Some? {
        assert events == warn + node.events;
      } else {
        assert events == warn + node.events + Compile(dir, api, host).events;
      }
    }
  }

  /** The install runs exactly when the tools answered and it is due. */
  lemma BuildInstallDecision(env: Env, host: Host)
    requires ProjectFound(env, host)
    ensures var dir := ProjectDir(env, host);
      Run(NpmCi, dir) in BuildStatic(env, host).events
      <==> ToolsPresent(dir, host) && InstallsIn(dir, IsTrue(env.skipNpmCi), host)
  {
  }

  /**
   * A build that succeeded found the project and the tools, ran the install
   * when due, wrote the merged file when there was a value, ran the build and
   * found the export directory.
   */
  lemma BuildSucceeded(env: Env, host: Host)
    requires BuildStatic(env, host).outcome.BuiltAt?
    ensures var dir := ProjectDir(env, host);
      var r := BuildStatic(env, host);
      ProjectFound(env, host) && ToolsPresent(dir, host)
      && (InstallsIn(dir, IsTrue(env.skipNpmCi), host) ==> host.succeeds(NpmCi, dir))
      && host.succeeds(NpmRunBuild, dir)
      && r.outcome.outDir == JoinPath(dir, "out") && host.pathExists(r.outcome.outDir)
      && Run(NpmRunBuild, dir) in r.events
      && (PublicApi(env) != "" ==> EnvWrite(dir, PublicApi(env), host) in r.events)
  {
  }
}
