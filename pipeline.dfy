/**
 * The command line: one sub-command picks a stage or the whole pipeline
 * (verify, build, deploy, invalidate), and the run ends with an exit status.
 *
 * A run ends either normally with an exit status, or by aborting with a
 * fault: a `sys.exit` with a message or an uncaught provider or HTTP error,
 * both of which end the process with status 1.
 */
module Pipeline {
  import opened Effects
  import opened Config
  import opened Health
  import opened Build
  import opened Storage
  import opened Cdn

  datatype Subcommand = Verify | BuildSite | Deploy | Invalidate | All | Tiles | Placeholder

  datatype Termination = Exit(code: nat) | Abort(fault: Fault)

  datatype Finished = Finished(termination: Termination, events: seq<Event>)

  /** Everything outside the process that a run consults. */
  datatype World = World(
    live: map<string, string>,      // the process environment
    dotenv: map<string, string>,    // the settings of the .env file, when it is loaded
    httpOk: string -> bool,         // a GET of the URL answers with JSON
    host: Host,                     // paths, files and local commands
    listing: seq<Entry>,            // the recursive listing of the export directory, in traversal order
    mime: string -> Option<string>, // the content-type table
    cloud: Cloud,                   // the storage and CDN providers
    now: nat)                       // the clock, in whole seconds

  /** The word that selects each sub-command. */
  function Name(c: Subcommand): string {
    match c
    case Verify => "verify"
    case BuildSite => "build"
    case Deploy => "deploy"
    case Invalidate => "invalidate"
    case All => "all"
    case Tiles => "tiles"
    case Placeholder => "placeholder"
  }

  const Words: seq<string> := ["verify", "build", "deploy", "invalidate", "all", "tiles", "placeholder"]

  /** The arguments select a sub-command when they are exactly one of the seven words. */
  function ParseArgs(args: seq<string>): (c: Option<Subcommand>)
    ensures c.Some? <==> |args| == 1 && args[0] in Words
    ensures c.Some? ==> Name(c.value) == args[0]
  {
    if |args| != 1 then None
    else
      var w := args[0];
      if w == "verify" then Some(Verify)
      else if w == "build" then Some(BuildSite)
      else if w == "deploy" then Some(Deploy)
      else if w == "invalidate" then Some(Invalidate)
      else if w == "all" then Some(All)
      else if w == "tiles" then Some(Tiles)
      else if w == "placeholder" then Some(Placeholder)
      else None
  }

  /** Every sub-command is selected by its own word, so no two share a word. */
  lemma ParseName(c: Subcommand)
    ensures ParseArgs([Name(c)]) == Some(c)
  {
  }

  /** The process exit status of a finished run. */
  function ExitStatus(t: Termination): nat {
    match t
    case Exit(code) => code
    case Abort(_) => 1
  }

  /** The status argparse ends the process with when the arguments name no sub-command. */
  const UsageStatus: nat := 2

  // ---- the sub-commands ----

  /** The trace of the health checks: the requests, then one report line per probe. */
  function ProbeTrace(checks: seq<Check>): seq<Event> {
    Requests(checks) + Reports(checks)
  }

  function VerifyCommand(env: Env, httpOk: string -> bool): Finished {
    var checks := Outcomes(PlannedProbes(env), httpOk);
    Finished(if AllPassed(checks) then Exit(0) else Exit(2), ProbeTrace(checks))
  }

  function BuildCommand(env: Env, host: Host): Finished {
    var b := BuildStatic(env, host);
    Finished(if b.outcome.BuiltAt? then Exit(0) else Abort(b.outcome.fault), b.events)
  }

  /** The export directory `deploy` expects: `out` under NEXTJS_DIR, which may be unset. */
  function ExportDir(env: Env, host: Host): string {
    JoinPath(host.resolve(env.nextjsDir), "out")
  }

  function SyncTermination(o: SyncOutcome): Termination {
    if o.Synced? then Exit(0) else Abort(o.fault)
  }

  function DeployCommand(env: Env, w: World): Finished {
    var out := ExportDir(env, w.host);
    if !w.host.pathExists(out) then Finished(Abort(NoBuildOutput), [])
    else
      var s := Sync(env, out, w.listing, w.mime, w.cloud);
      Finished(SyncTermination(s.outcome), s.events)
  }

  function InvalidateCommand(env: Env, w: World): Finished {
    var c := CfInvalidate(env, w.cloud, w.now);
    Finished(if c.fault.Some? then Abort(c.fault.value) else Exit(0), c.events)
  }

  /** The verify part of `all`: its trace, and a warning line when some check failed. */
  function VerifyAndContinue(env: Env, httpOk: string -> bool): seq<Event> {
    var checks := Outcomes(PlannedProbes(env), httpOk);
    ProbeTrace(checks) + (if AllPassed(checks) then [] else [Log(VerifyFailuresContinuing)])
  }

  /** The deploy and the invalidation of `all`, once the build produced `out`. */
  function DeployAndInvalidate(env: Env, out: string, w: World): Finished {
    var s := Sync(env, out, w.listing, w.mime, w.cloud);
    if s.outcome.SyncFailed? then Finished(Abort(s.outcome.fault), s.events)
    else
      var c := CfInvalidate(env, w.cloud, w.now);
      Finished(if c.fault.Some? then Abort(c.fault.value) else Exit(0), s.events + c.events)
  }

  /** Verify, build, deploy and invalidate; any stage but verify ends the run when it fails. */
  function AllCommand(env: Env, w: World): Finished {
    var verified := VerifyAndContinue(env, w.httpOk);
    var b := BuildStatic(env, w.host);
    if b.outcome.BuildFailed? then Finished(Abort(b.outcome.fault), verified + b.events)
    else
      var rest := DeployAndInvalidate(env, b.outcome.outDir, w);
      Finished(rest.termination, verified + b.events + rest.events)
  }

  /** The two snapshot endpoints of the portfolio service. */
  function TilesUrl(base: string): string {
    base + "/tiles"
  }

  function StatusUrl(base: string): string {
    base + "/status"
  }

  /** Fetches the tiles and the status of the portfolio service; a failed fetch ends the run. */
  function TilesCommand(env: Env, httpOk: string -> bool): (r: Finished)
    ensures ApiBase(env.portfolioApiBase) == "" ==> r == Finished(Abort(MissingSetting("PORTFOLIO_API_BASE")), [])
    ensures ApiBase(env.portfolioApiBase) != "" ==>
      var base := ApiBase(env.portfolioApiBase);
      (r.termination == Exit(0) <==> httpOk(TilesUrl(base)) && httpOk(StatusUrl(base)))
      && (r.termination != Exit(0) ==>
            r.termination == Abort(HttpError(if httpOk(TilesUrl(base)) then StatusUrl(base) else TilesUrl(base))))
  {
    var base := ApiBase(env.portfolioApiBase);
    if base == "" then Finished(Abort(MissingSetting("PORTFOLIO_API_BASE")), [])
    else
      var tiles, status := TilesUrl(base), StatusUrl(base);
      if !httpOk(tiles) then Finished(Abort(HttpError(tiles)), [HttpGet(tiles)])
      else if !httpOk(status) then Finished(Abort(HttpError(status)), [HttpGet(tiles), HttpGet(status)])
      else Finished(Exit(0), [HttpGet(tiles), HttpGet(status), Log(SnapshotsWritten)])
  }

  function PlaceholderCommand(): Finished {
    Finished(Exit(0), [Log(PlaceholderTile)])
  }

  function Dispatch(c: Subcommand, env: Env, w: World): Finished {
    match c
    case Verify => VerifyCommand(env, w.httpOk)
    case BuildSite => BuildCommand(env, w.host)
    case Deploy => DeployCommand(env, w)
    case Invalidate => InvalidateCommand(env, w)
    case All => AllCommand(env, w)
    case Tiles => TilesCommand(env, w.httpOk)
    case Placeholder => PlaceholderCommand()
  }

  /** A whole run: settings loaded, arguments parsed, then the selected sub-command. */
  function Orchestrate(args: seq<string>, w: World): Finished {
    var env := LoadEnv(w.live, w.dotenv);
    match ParseArgs(args)
    case None => Finished(Exit(UsageStatus), [])
    case Some(c) => Dispatch(c, env, w)
  }

  method RunVerify(env: Env, httpOk: string -> bool) returns (r: Finished)
    ensures r == VerifyCommand(env, httpOk)
  {
    var ok, checks, trace := VerifyServices(env, httpOk);
    r := Finished(if ok then Exit(0) else Exit(2), trace);
  }

  method RunDeploy(env: Env, w: World) returns (r: Finished)
    ensures r == DeployCommand(env, w)
  {
    var out := ExportDir(env, w.host);
    if !w.host.pathExists(out) {
      return Finished(Abort(NoBuildOutput), []);
    }
    var outcome, trace := S3UploadDir(env, out, w.listing, w.mime, w.cloud);
    r := Finished(SyncTermination(outcome), trace);
  }

  method RunDeployAndInvalidate(env: Env, out: string, w: World) returns (r: Finished)
    ensures r == DeployAndInvalidate(env, out, w)
  {
    var outcome, trace := S3UploadDir(env, out, w.listing, w.mime, w.cloud);
    if outcome.SyncFailed? {
      return Finished(Abort(outcome.fault), trace);
    }
    var c := CfInvalidate(env, w.cloud, w.now);
    r := Finished(if c.fault.Some? then Abort(c.fault.value) else Exit(0), trace + c.events);
  }

  method RunVerifyAndContinue(env: Env, httpOk: string -> bool) returns (trace: seq<Event>)
    ensures trace == VerifyAndContinue(env, httpOk)
  {
    var ok, checks;
    ok, checks, trace := VerifyServices(env, httpOk);
    if !ok {
      trace := trace + [Log(VerifyFailuresContinuing)];
    }
  }

  method RunAll(env: Env, w: World) returns (r: Finished)
    ensures r == AllCommand(env, w)
  {
    var trace := RunVerifyAndContinue(env, w.httpOk);
    var b := BuildStatic(env, w.host);
    trace := trace + b.events;
    if b.outcome.BuildFailed? {
      return Finished(Abort(b.outcome.fault), trace);
    }
    var rest := RunDeployAndInvalidate(env, b.outcome.outDir, w);
    r := Finished(rest.termination, trace + rest.events);
  }

  /** The entry point: runs the stages the sub-command selects, in order. */
  method Execute(args: seq<string>, w: World) returns (r: Finished)
    ensures r == Orchestrate(args, w)
  {
    var env := LoadEnv(w.live, w.dotenv);
    var cmd := ParseArgs(args);
    if cmd.None? {
      return Finished(Exit(UsageStatus), []);
    }
    match cmd.value
    case Verify => r := RunVerify(env, w.httpOk);
    case BuildSite => r := BuildCommand(env, w.host);
    case Deploy => r := RunDeploy(env, w);
    case Invalidate => r := InvalidateCommand(env, w);
    case All => r := RunAll(env, w);
    case Tiles => r := TilesCommand(env, w.httpOk);
    case Placeholder => r := PlaceholderCommand();
  }

  // ---- exit statuses ----

  /** `verify` exits 0 when every configured service answered both probes, and 2 otherwise. */
  lemma VerifyExitStatus(env: Env, httpOk: string -> bool)
    ensures var t := VerifyCommand(env, httpOk).termination;
      (t == Exit(0) <==>
        Healthy(ApiBase(env.forecastApiBase), "/health", "/public/status", httpOk)
        && Healthy(ApiBase(env.monteApiBase), "/health", "/public/status", httpOk)
        && Healthy(ApiBase(env.portfolioApiBase), "/tiles", "/status", httpOk))
      && (t == Exit(0) || t == Exit(2))
  {
    VerdictIffServicesHealthy(env, httpOk);
  }

  /** `all` never ends with status 2: a failed check is logged and the build runs anyway. */
  lemma AllNeverExitsTwo(env: Env, w: World)
    ensures ExitStatus(AllCommand(env, w).termination) != 2
  {
  }

  /** Among the sub-commands, only a failed `verify` ends with status 2. */
  lemma DispatchExitTwo(c: Subcommand, env: Env, w: World)
    ensures ExitStatus(Dispatch(c, env, w).termination) == 2 <==>
      c == Verify && !AllPassed(Outcomes(PlannedProbes(env), w.httpOk))
  {
    if c == All {
      AllNeverExitsTwo(env, w);
    }
  }

  /** Status 2 means a failed `verify` or arguments that name no sub-command. */
  lemma ExitTwoOnlyFromVerifyOrUsage(args: seq<string>, w: World)
    ensures ExitStatus(Orchestrate(args, w).termination) == 2 <==>
      ParseArgs(args).None?
      || (ParseArgs(args) == Some(Verify)
          && !AllPassed(Outcomes(PlannedProbes(LoadEnv(w.live, w.dotenv)), w.httpOk)))
  {
    if ParseArgs(args).Some? {
      DispatchExitTwo(ParseArgs(args).value, LoadEnv(w.live, w.dotenv), w);
    }
  }

  /**
   * After a failed check `all` warns and still builds: the run begins with the
   * probe trace, the warning, and then the whole trace of the build stage.
   */
  lemma AllContinuesAfterVerifyFailure(env: Env, w: World)
    requires !AllPassed(Outcomes(PlannedProbes(env), w.httpOk))
    ensures var checks := Outcomes(PlannedProbes(env), w.httpOk);
      var head := ProbeTrace(checks) + [Log(VerifyFailuresContinuing)] + BuildStatic(env, w.host).events;
      var r := AllCommand(env, w);
      |head| <= |r.events| && r.events[..|head|] == head
  {
  }

  /** `deploy` refuses to run without the export directory, before any call. */
  lemma DeployNeedsBuildOutput(env: Env, w: World)
    ensures !w.host.pathExists(ExportDir(env, w.host)) <==> DeployCommand(env, w) == Finished(Abort(NoBuildOutput), [])
  {
  }

  // ---- which commands touch the providers ----

  lemma ProbeTraceIsLocal(checks: seq<Check>)
    ensures forall e :: e in ProbeTrace(checks) ==> e.HttpGet? || e.Log?
  {
  }

  /** `verify`, `build`, `tiles` and `placeholder` make no storage or CDN call. */
  lemma ReadOnlyCommandsCallNoProvider(c: Subcommand, env: Env, w: World)
    requires c in {Verify, BuildSite, Tiles, Placeholder}
    ensures ProviderCalls(Dispatch(c, env, w).events) == [] && Mutations(Dispatch(c, env, w).events) == []
  {
    match c
    case Verify =>
      ProbeTraceIsLocal(Outcomes(PlannedProbes(env), w.httpOk));
      NoProviderCalls(VerifyCommand(env, w.httpOk).events);
    case BuildSite =>
      BuildCallsNoProvider(env, w.host);
    case Tiles =>
      NoProviderCalls(TilesCommand(env, w.httpOk).events);
    case Placeholder =>
      NoProviderCalls(PlaceholderCommand().events);
  }

  lemma VerifyAndContinueChangesNothing(env: Env, httpOk: string -> bool)
    ensures Mutations(VerifyAndContinue(env, httpOk)) == []
  {
    ProbeTraceIsLocal(Outcomes(PlannedProbes(env), httpOk));
    NoMutations(VerifyAndContinue(env, httpOk));
  }

  /** In dry-run mode the sync stage changes nothing, whatever its listing. */
  lemma SyncDryRun(env: Env, out: string, w: World)
    requires DryRun(env)
    ensures Mutations(Sync(env, out, w.listing, w.mime, w.cloud).events) == []
  {
    SyncDryRunChangesNothing(env, SyncPlan(env, out, w.listing, w.mime), w.cloud);
  }

  lemma DeployAndInvalidateDryRun(env: Env, out: string, w: World)
    requires DryRun(env)
    ensures Mutations(DeployAndInvalidate(env, out, w).events) == []
  {
    var s := Sync(env, out, w.listing, w.mime, w.cloud);
    var c := CfInvalidate(env, w.cloud, w.now);
    SyncDryRun(env, out, w);
    InvalidateTouchesOnlyCdn(env, w.cloud, w.now);
    ConcatMutations(s.events, c.events);
    DeployAndInvalidateEvents(env, out, w);
  }

  /** The events of deploy-and-invalidate: the sync's, then the invalidation's when the sync succeeded. */
  lemma DeployAndInvalidateEvents(env: Env, out: string, w: World)
    ensures var s := Sync(env, out, w.listing, w.mime, w.cloud);
      DeployAndInvalidate(env, out, w).events ==
        if s.outcome.SyncFailed? then s.events else s.events + CfInvalidate(env, w.cloud, w.now).events
  {
  }

  /** In dry-run mode `all` changes nothing in the bucket or the CDN. */
  lemma AllDryRunChangesNothing(env: Env, w: World)
    requires DryRun(env)
    ensures Mutations(AllCommand(env, w).events) == []
  {
    var verified := VerifyAndContinue(env, w.httpOk);
    var b := BuildStatic(env, w.host);
    VerifyAndContinueChangesNothing(env, w.httpOk);
    BuildCallsNoProvider(env, w.host);
    ConcatMutations(verified, b.events);
    if b.outcome.BuiltAt? {
      var rest := DeployAndInvalidate(env, b.outcome.outDir, w);
      DeployAndInvalidateDryRun(env, b.outcome.outDir, w);
      ConcatMutations(verified + b.events, rest.events);
    }
  }

  /** In dry-run mode no sub-command changes anything in the bucket or the CDN. */
  lemma DispatchDryRun(c: Subcommand, env: Env, w: World)
    requires DryRun(env)
    ensures Mutations(Dispatch(c, env, w).events) == []
  {
    match c
    case Verify => ReadOnlyCommandsCallNoProvider(c, env, w);
    case BuildSite => ReadOnlyCommandsCallNoProvider(c, env, w);
    case Tiles => ReadOnlyCommandsCallNoProvider(c, env, w);
    case Placeholder => ReadOnlyCommandsCallNoProvider(c, env, w);
    case Deploy =>
      if w.host.pathExists(ExportDir(env, w.host)) {
        SyncDryRun(env, ExportDir(env, w.host), w);
      }
    case Invalidate => InvalidateTouchesOnlyCdn(env, w.cloud, w.now);
    case All => AllDryRunChangesNothing(env, w);
  }

  /** With DRY_RUN=true no run creates a bucket, uploads an object or invalidates a path. */
  lemma DryRunChangesNothing(args: seq<string>, w: World)
    requires DryRun(LoadEnv(w.live, w.dotenv))
    ensures Mutations(Orchestrate(args, w).events) == []
  {
    if ParseArgs(args).Some? {
      DispatchDryRun(ParseArgs(args).value, LoadEnv(w.live, w.dotenv), w);
    }
  }
}
