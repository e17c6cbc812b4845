# Portfolio orchestrator: a Dafny model

`orchestrate_portfolio.py` drives the release of a portfolio web site. It has
four stages:

- **verify**: probe the forecast, Monte Carlo and portfolio services.
- **build**: build the Next.js site as a static export, after merging the
  public API base into `.env.production`.
- **deploy**: upload the export to an S3 bucket, with per-file content type
  and cache headers.
- **invalidate**: invalidate every path of a CloudFront distribution.

Seven sub-commands run these stages alone or together: `verify`, `build`,
`deploy`, `invalidate`, `all`, `tiles` and `placeholder`.

This project models that script and proves properties of the model.

Everything outside the process becomes a parameter:

- the environment variables and the `.env` overlay are maps;
- HTTP answers, tool and file checks, the MIME table, the recursive listing
  of the export and the provider's answers are oracles in a `World` value;
- the clock is a natural number of seconds.

Each stage returns the sequence of effects it performs, in order:

- HTTP requests;
- commands run, with the directory they run in;
- files written;
- S3 and CloudFront calls;
- log lines, as structured notes.

The run ends with an exit status. A run that calls `sys.exit` with a message,
or that hits an uncaught provider or HTTP error, ends with an `Abort` carrying
its fault (status 1). A normal end is `Exit(code)`.

The code is modelled in the form it has:

- Pure decisions are functions with lemmas: the header rules, the
  `.env.production` merge, the public API choice, the install decision, the
  object keys and the invalidation request.
- The health checks are a method proved against the probe plan. Its first
  loop runs the six guarded probes of `verify_services` in their order. Its
  second loop is the source's report loop.
- The upload loop of `s3_upload_dir` is a method with loop invariants,
  proved against a step function.
- The entry point `Execute` is a method proved equal to the function
  `Orchestrate` that specifies a whole run.

Modules:

- `Effects`: events, faults and views of a trace (the mutating calls, the
  provider calls, the puts).
- `Text`: Python's `strip`, `rstrip`, `lower`, `splitlines` and `"\n".join`.
- `Config`: the settings.
- `Headers`: `guess_headers`.
- `BuildEnv`: `write_build_env`.
- `Build`: `ensure_node` and `build_static`.
- `Health`: `verify_services`.
- `Storage`: `s3_upload_dir`.
- `Cdn`: `cf_invalidate`.
- `Pipeline`: `main` and `fetch_tiles`.

Two models of the `.env.production` merge are kept side by side:

- **`BuildEnv.MergeBuildEnvAsWritten`** is the merge as the code performs
  it. The build stage writes exactly this text. The code does not edit the
  key line in place. It drops every line that starts with
  `NEXT_PUBLIC_PORTFOLIO_API=` and appends one fresh key line at the end.
  When the file already held the key, the value on that line is
  right-stripped of whitespace.
- **`BuildEnv.MergeBuildEnv`** is the corrected merge: the same text, but the
  value is never stripped. It is the reference definition. The code's merge
  equals the corrected merge of the value it actually writes
  (`BuildEnv.AsWrittenIsMergeOfWrittenValue`).

Merging the same value twice is meant to leave the file unchanged. The code
does not do that for values that end in whitespace; see "## Findings". It
does settle from its second run on (`BuildEnv.AsWrittenStable`). Both results
hold only for values without line breaks; see "## Left out".

## Model

| member | source | states |
|---|---|---|
| Config.Lookup | orchestrate_portfolio.py:45-55 | A variable set in the environment keeps its value, even an empty one (the overlay does not override it). Otherwise the `.env` value applies, otherwise "". |
| Config.IsTrueCaseInsensitive | orchestrate_portfolio.py:156 | A flag is on exactly when it has four characters that lower-case to `t`, `r`, `u`, `e`. |
| Config.PublicApi | orchestrate_portfolio.py:126 | The embedded API base is empty iff both settings are empty. Otherwise it is NEXT_PUBLIC_PORTFOLIO_API when set, else PORTFOLIO_API_BASE. |
| Headers.ContentType | orchestrate_portfolio.py:138-139 | The content type is never empty. It is the table's answer when there is one, `application/octet-stream` when there is none. |
| Headers.GuessHeaders | orchestrate_portfolio.py:137-147 | The content type is the table's guess for the path, or `application/octet-stream` when there is none (ContentType). The cache policy is one of the three policies. |
| Headers.HtmlRevalidates | orchestrate_portfolio.py:141-142 | The must-revalidate policy applies exactly to `.html` paths, even under `/_next/`. |
| Headers.OneYearIffFingerprinted | orchestrate_portfolio.py:143-144 | The year-long immutable policy applies exactly to non-`.html` paths that contain `/_next/` or end in a listed extension. |
| Headers.FiveMinutesOtherwise | orchestrate_portfolio.py:145-146 | The 300-second policy applies exactly to the remaining paths. |
| Headers.FingerprintedExtensionsCachedForAYear | orchestrate_portfolio.py:143-144 | Any path ending in one of the eleven extensions is cached for a year. |
| Headers.EndsWithAnyIff | orchestrate_portfolio.py:143 | The `any(...endswith...)` scan holds iff some listed extension ends the path. |
| Text.SplitLines | orchestrate_portfolio.py:112 | `splitlines()` yields lines without line breaks, and none iff the text is empty. |
| Text.SplitJoin | orchestrate_portfolio.py:112-114 | Joining clean lines with `\n`, adding a final `\n` and splitting again gives the lines back. |
| Text.JoinSplit | orchestrate_portfolio.py:112-114 | A text whose only breaks are `\n` and which ends in `\n` is rebuilt exactly by splitting it, joining with `\n` and adding `\n`. |
| Text.SplitAppend | orchestrate_portfolio.py:116 | After a text that ends in `\n`, appended text splits separately. |
| Text.SplitTerminate | orchestrate_portfolio.py:116 | Adding the missing final `\n` changes none of the lines. |
| Text.RStripSpaceAfter | orchestrate_portfolio.py:113 | `rstrip` after a non-space prefix only touches the suffix. |
| BuildEnv.MergeBuildEnv | orchestrate_portfolio.py:106-118 | The corrected merge, which never strips the value. The new file always ends with the key line and `\n`. A file without the key is kept as a prefix. It grows by the key line, plus a `\n` exactly when it did not already end in one. |
| BuildEnv.Kept | orchestrate_portfolio.py:112 | The surviving lines are exactly the old lines that do not start with the key. |
| BuildEnv.KeptAppend | orchestrate_portfolio.py:112 | The filter works line by line and keeps the order. |
| BuildEnv.KeyLineInside | orchestrate_portfolio.py:111-112 | A line that starts with the key means the key occurs in the text, so the filter branch is the one taken. |
| BuildEnv.MergeLines | orchestrate_portfolio.py:109-118 | Corrected merge: after the merge the lines are the old lines without key lines, in order, then exactly one key line. A key-free file must be non-empty and use only `\n` breaks. |
| BuildEnv.MergeIntoEmptyFile | orchestrate_portfolio.py:116 | An existing empty file gains a blank first line before the key line. |
| BuildEnv.RemergeFixed | orchestrate_portfolio.py:111-114 | Corrected merge: key-free lines followed by one key line with the same value are a fixed point. |
| BuildEnv.MergeIdempotent | orchestrate_portfolio.py:106-118 | Corrected merge: merging the same value twice writes what merging it once wrote. |
| BuildEnv.MergeBuildEnvAsWritten | orchestrate_portfolio.py:106-118 | The merge as the code performs it, with `content.strip()` in the key branch; this is the text the build stage writes. A key-free file is kept as a prefix. |
| BuildEnv.StripKeyContent | orchestrate_portfolio.py:113 | `strip()` of the key line removes its `\n` and any whitespace that ends the value. |
| BuildEnv.AsWrittenAgreesOnTrimmedValues | orchestrate_portfolio.py:106-118 | For a value that does not end in whitespace the as-written and corrected merges agree. |
| BuildEnv.AsWrittenNotIdempotent | orchestrate_portfolio.py:113 | With no file and the value `x `, the first run writes the key line with the space and the second run writes it without. |
| BuildEnv.AsWrittenKeyBranch | orchestrate_portfolio.py:111-114 | When the file holds the key, the code writes the corrected merge of the value with its trailing whitespace removed. |
| BuildEnv.AsWrittenIsMergeOfWrittenValue | orchestrate_portfolio.py:106-118 | In every branch the code's merge is the corrected merge of the value it actually writes: right-stripped when the file held the key, unchanged otherwise. |
| BuildEnv.WrittenValueClean | orchestrate_portfolio.py:113 | Right-stripping a value without line breaks leaves it without line breaks. |
| BuildEnv.AsWrittenLines | orchestrate_portfolio.py:109-118 | The lines of the written file are the old lines that do not start with the key, in order, then one key line with the written value. The file ends with that line and `\n`. |
| BuildEnv.AsWrittenStable | orchestrate_portfolio.py:106-118 | The code's merge settles from its second run: a third run with the same value writes what the second wrote. |
| Build.RunsNpmCi | orchestrate_portfolio.py:103 | `npm ci` is skipped exactly when SKIP_NPM_CI is on and `node_modules` exists. |
| Build.FirstMissing | orchestrate_portfolio.py:100-102 | This is the position of the first tool that does not answer: every earlier tool answers. It is the number of tools when all answer. |
| Build.RequireTools | orchestrate_portfolio.py:39-43 | The tools are checked in order with `-v` in the project directory. The stage fails iff some tool does not answer, naming the first such tool (FirstMissing). Every earlier tool answered, and no later tool is checked. On success every tool was checked. |
| Build.EnsureNode | orchestrate_portfolio.py:99-104 | It succeeds iff node, npm and npx answer and the install, when due, succeeds. `npm ci` runs iff the tools answered and the install is due. Everything runs in the project directory. |
| Build.BuildStatic | orchestrate_portfolio.py:121-135 | An unset or missing NEXTJS_DIR stops the stage before any effect. Every effect is a command in the project directory, a file write or a log line. The only file written is `.env.production` with the text of the code's merge (MergeBuildEnvAsWritten), and only when there is a public API base. |
| Build.Compile | orchestrate_portfolio.py:130-135 | The part after the install: it writes the merged file only when there is a value, always runs `npm run build` and never `npm ci`. It succeeds iff the build command succeeds and `out` exists, and then returns `out`. |
| Build.BuildCallsNoProvider | orchestrate_portfolio.py:121-135 | The build stage makes no storage or CDN call. |
| Build.BuildWarnsIffNoApi | orchestrate_portfolio.py:126-128 | The missing-API warning is logged exactly when the project exists and no public API base is known. |
| Build.BuildInstallDecision | orchestrate_portfolio.py:99-104 | Within the build, `npm ci` runs exactly when the tools answered and the install is due. |
| Build.BuildSucceeded | orchestrate_portfolio.py:121-135 | A successful build found the project and the tools and ran the install when due. It wrote the code's merge of the value when there was one, ran the build, and found `out`. |
| Health.ApiBase | orchestrate_portfolio.py:76-78 | A service base is the setting with only its trailing slashes removed: a prefix of it, followed only by `/`, and not ending in `/`. A setting without a trailing slash is unchanged. |
| Health.RunProbes | orchestrate_portfolio.py:65-97 | The loops record each probe's outcome in order. The verdict is true iff all passed. The trace is the requests in order, then one report line per probe. |
| Health.VerifyServices | orchestrate_portfolio.py:64-97 | The stage probes exactly the planned probes of the configured services. It has the same verdict and trace as RunProbes. |
| Health.NothingConfiguredPasses | orchestrate_portfolio.py:80-85 | With no service configured nothing is probed and the verdict is true. |
| Health.ProbeCount | orchestrate_portfolio.py:80-85 | Each configured service adds exactly two probes, so there are at most six. |
| Health.ServicePasses | orchestrate_portfolio.py:67-74 | One service's probes all pass iff it is unconfigured or both of its URLs answer. |
| Health.VerdictIffServicesHealthy | orchestrate_portfolio.py:64-97 | The verdict is true iff every configured service answers both probes. |
| Storage.NormalizePrefix | orchestrate_portfolio.py:154 | The prefix is a slice of S3_PREFIX with only leading and trailing `/` removed, and neither starts nor ends with `/`. |
| Storage.ObjectKey | orchestrate_portfolio.py:174 | Under a prefix the key is `prefix/` followed by the relative path; without one it is the relative path. |
| Storage.EffectiveRegion | orchestrate_portfolio.py:152 | The region is AWS_REGION when it is set, and us-east-1 when it is not. |
| Storage.LocationConstraint | orchestrate_portfolio.py:164-166 | A location constraint is sent iff AWS_REGION is set and is not us-east-1, and then it is AWS_REGION. |
| Storage.PlannedUpload | orchestrate_portfolio.py:173-181 | Each put targets the bucket under the file's key and carries the file's bytes. Its content type and cache policy are those guessed for the file's full path under the export directory. |
| Storage.PlanAppend | orchestrate_portfolio.py:171-175 | The upload plan follows the listing: the plan of two listings is the two plans in order. |
| Storage.FirstFailure | orchestrate_portfolio.py:179-181 | This is the first rejected put: every earlier put succeeds and the one at that position fails. |
| Storage.AllStoredIffNoFailure | orchestrate_portfolio.py:179-181 | Every put succeeds iff there is no first failure. |
| Storage.ProvisionBucket | orchestrate_portfolio.py:158-168 | The bucket is probed first. It is created once, with the region's constraint, iff missing and not dry-run. Provisioning fails iff that creation fails. Dry-run changes nothing. |
| Storage.UploadFiles | orchestrate_portfolio.py:170-184 | The loop's outcome and trace are those of the step function over the plan. |
| Storage.UploadOne | orchestrate_portfolio.py:176-183 | One regular file's turn is the step function: in dry-run mode the upload is only logged; otherwise it is sent, a rejected put stops the loop, and a stored one is counted, with a progress line at every multiple of fifty. |
| Storage.S3UploadDir | orchestrate_portfolio.py:149-184 | The stage's outcome and trace are those of the stage function Sync. |
| Storage.LoopCreatesNothing | orchestrate_portfolio.py:170-184 | The upload loop never creates a bucket, and changes nothing in dry-run mode. |
| Storage.DryLoopLogsPlan | orchestrate_portfolio.py:176-178 | In dry-run mode every planned upload is logged in order, none is sent, and the count is zero. |
| Storage.LiveLoopLogsNoDryPut | orchestrate_portfolio.py:176-182 | Outside dry-run mode no upload is merely logged. |
| Storage.LiveLoopSendsUntilFailure | orchestrate_portfolio.py:179-182 | The loop sends the planned puts in order up to and including the first rejected one. It stops iff there is one; otherwise it counts them all. |
| Storage.LoopProgress | orchestrate_portfolio.py:182-183 | Progress lines are logged exactly at the multiples of fifty up to the count. |
| Storage.SyncAfterProvision | orchestrate_portfolio.py:158-184 | Past provisioning, the stage's effects are the provisioning effects followed by the loop's. |
| Storage.SyncNeedsBucket | orchestrate_portfolio.py:153-155 | Without S3_BUCKET the stage fails for it and makes no call. |
| Storage.SyncProbesFirst | orchestrate_portfolio.py:159-160 | With a bucket name the first call is the probe of that bucket. |
| Storage.SyncCreatesBucketOnlyWhenMissing | orchestrate_portfolio.py:158-168 | The stage creates the bucket iff it is named, missing and not dry-run, once and with the right constraint. |
| Storage.SyncCreateFailureStops | orchestrate_portfolio.py:167-168 | A failed creation ends the stage before any upload. |
| Storage.SyncDryRunChangesNothing | orchestrate_portfolio.py:156-178 | In dry-run mode nothing is changed, every planned upload is logged instead, and the total is zero. |
| Storage.SyncUploadsEveryFile | orchestrate_portfolio.py:170-184 | Outside dry-run mode, with a bucket, the stage succeeds iff every put succeeds. It then sends one put per regular file, in listing order with that file's headers, counts them all and logs progress every fifty. |
| Storage.SyncStopsAtFirstFailedPut | orchestrate_portfolio.py:179-181 | A failed upload is the first rejected one, and nothing is sent after it. |
| Cdn.DecimalString | orchestrate_portfolio.py:194 | The caller reference is decimal digits with no leading zero. |
| Cdn.DecimalRoundTrip | orchestrate_portfolio.py:194 | The caller reference reads back as the second it was made from. |
| Cdn.DistinctReferences | orchestrate_portfolio.py:194 | Different seconds give different caller references. |
| Cdn.CfInvalidate | orchestrate_portfolio.py:186-204 | The only call is one invalidation of `/*` (quantity 1, the time as caller reference), made exactly when a distribution is set and dry-run is off. The stage fails exactly when that call fails. |
| Cdn.InvalidateReports | orchestrate_portfolio.py:187-204 | It logs the skip iff no distribution is set, the dry-run line iff set and dry, and the created id iff the call succeeded. |
| Cdn.InvalidateTouchesOnlyCdn | orchestrate_portfolio.py:186-204 | It never probes or creates a bucket or puts an object, and changes nothing in dry-run mode. |
| Pipeline.ParseArgs | orchestrate_portfolio.py:232-241 | The arguments select a sub-command iff they are exactly one of the seven words, and then that word's sub-command. |
| Pipeline.ParseName | orchestrate_portfolio.py:234-240 | Each sub-command is selected by its own word. |
| Pipeline.TilesCommand | orchestrate_portfolio.py:206-214 | Without a portfolio base it stops before any request. It ends normally iff both snapshot requests succeed, otherwise with the first failing URL. |
| Pipeline.RunVerify | orchestrate_portfolio.py:243-244 | `verify` ends with 0 or 2 and the probe trace, as specified by VerifyCommand. |
| Pipeline.RunDeploy | orchestrate_portfolio.py:247-251 | `deploy` checks `out` under NEXTJS_DIR, then syncs it, as specified by DeployCommand. |
| Pipeline.RunVerifyAndContinue | orchestrate_portfolio.py:255-256 | The verify step of `all` logs a warning on failure and carries on. |
| Pipeline.RunDeployAndInvalidate | orchestrate_portfolio.py:258-259 | The sync and then the invalidation, as specified by DeployAndInvalidate. |
| Pipeline.RunAll | orchestrate_portfolio.py:254-259 | `all` runs verify, build, deploy and invalidate in order, as specified by AllCommand. |
| Pipeline.Execute | orchestrate_portfolio.py:230-263 | A run's status and effects are those of Orchestrate. |
| Pipeline.VerifyExitStatus | orchestrate_portfolio.py:243-244 | `verify` exits 0 iff every configured service answered both probes, and 2 otherwise. |
| Pipeline.AllNeverExitsTwo | orchestrate_portfolio.py:254-259 | `all` never ends with status 2. |
| Pipeline.DispatchExitTwo | orchestrate_portfolio.py:243-263 | Among the sub-commands only a failed `verify` ends with status 2. |
| Pipeline.ExitTwoOnlyFromVerifyOrUsage | orchestrate_portfolio.py:230-263 | Status 2 means a failed `verify` or arguments that name no sub-command. |
| Pipeline.AllContinuesAfterVerifyFailure | orchestrate_portfolio.py:255-257 | After a failed check `all` warns and still runs the whole build stage. |
| Pipeline.DeployNeedsBuildOutput | orchestrate_portfolio.py:248-250 | `deploy` stops with no effect exactly when the export directory is missing. |
| Pipeline.ProbeTraceIsLocal | orchestrate_portfolio.py:64-97 | The health checks only make HTTP requests and log. |
| Pipeline.ReadOnlyCommandsCallNoProvider | orchestrate_portfolio.py:243-263 | `verify`, `build`, `tiles` and `placeholder` make no storage or CDN call. |
| Pipeline.VerifyAndContinueChangesNothing | orchestrate_portfolio.py:255-256 | The verify step of `all` changes nothing. |
| Pipeline.SyncDryRun | orchestrate_portfolio.py:156-178 | In dry-run mode the sync changes nothing, whatever the listing. |
| Pipeline.DeployAndInvalidateDryRun | orchestrate_portfolio.py:258-259 | In dry-run mode the sync and the invalidation change nothing. |
| Pipeline.AllDryRunChangesNothing | orchestrate_portfolio.py:254-259 | In dry-run mode `all` makes no storage or CDN change: no bucket is created, no object put, no path invalidated. |
| Pipeline.DispatchDryRun | orchestrate_portfolio.py:243-263 | In dry-run mode no sub-command makes a storage or CDN change. Local effects (commands, the `.env.production` write, the snapshots) still happen. |
| Pipeline.DryRunChangesNothing | orchestrate_portfolio.py:230-263 | With DRY_RUN=true no run creates a bucket, puts an object or invalidates a path. |

## Left out

- The module-level S3 client and the credential check at import time (lines 5-18) are not modelled. The model assumes the script gets past its imports.
- Missing optional packages (`python-dotenv`, `boto3`, `requests`) are not modelled. The `SystemExit` raised when `boto3` or `requests` is missing is therefore not modelled either.
- Subprocesses are an oracle: whether a command exits with status 0 in a directory. Their output and the `$ ...` echo line are not modelled.
- HTTP is an oracle: whether a GET succeeds. Response bodies, the JSON pretty-printing, the 1200/600-character truncation and the timeout are not modelled. The report line records the name and the verdict only.
- `fetch_tiles` writes `snapshots/tiles.json` and `snapshots/status.json`. The model logs that the snapshots were written but keeps no file contents.
- `sentiment_placeholder_tile` prints a fixed JSON tile. The model records one log note for it.
- `mimetypes.guess_type` is an oracle from path to optional type, and its table is not modelled.
- `Path.expanduser()` and path normalisation are an oracle from setting to directory.
- `rglob("*")` order is not modelled: the listing is an input sequence, and the model uploads in that order.
- The file bodies are opaque byte sequences from the listing.
- `time.time()` is a parameter in whole seconds, so the truncation of a fractional time is not modelled.
- Exceptions other than the provider and HTTP errors the code names are not modelled, for example a `head_bucket` failure that is not a `ClientError`, or a file that cannot be read.
- Argument parsing covers exactly one positional word. `--help` (status 0) and argparse's messages are not modelled; any other argument list ends with status 2.
- `load_dotenv` parsing is not modelled: the `.env` file arrives as a map of names to values.
- `str.lower()` is modelled for ASCII only. No non-ASCII character lower-cases to one of `t`, `r`, `u`, `e`, so the `"true"` test is still exact.
- Health.VerifyServices: the six `if` statements of the source are modelled as one loop over the planned probes, in the same order.
- BuildEnv.MergeLines: the lines are stated only for values without line breaks, and for key-free files only when they are non-empty and their only line break is `\n`. A value such as `a\nb` writes two lines, and `\r` and the other breaks `splitlines()` knows are outside the statement.
- BuildEnv.MergeIdempotent: idempotence is stated only for values without line breaks and under the same condition on key-free files. A value such as `a\nb` is not idempotent: its second line survives the filter and the key line is appended again.
- BuildEnv.RemergeFixed: the fixed point is that of the corrected merge. The code's merge does not fix a key line whose value ends in whitespace (AsWrittenNotIdempotent); it settles from its second run (AsWrittenStable).
- BuildEnv.AsWrittenLines: stated under the same conditions as MergeLines, values without line breaks included.
- BuildEnv.AsWrittenStable: stated under the same conditions as MergeIdempotent, values without line breaks included.

## Findings

| source | as written | input that shows it | evidently intended | confidence | as-written member | corrected member |
|---|---|---|---|---|---|---|
| orchestrate_portfolio.py:113 | When the file already holds the key, the fresh key line is `content.strip()`, which removes the trailing `\n` and also any whitespace ending the value. The other two branches write the value unchanged. | No `.env.production` and a value `x ` (ending in a space). The first build writes `...API=x \n` and the next build writes `...API=x\n`, so two builds with the same setting embed different values. | The strip only removes the `\n`, so the key line is written as `...API=<value>` in every branch and merging twice gives what merging once gave. | medium, not executed | BuildEnv.AsWrittenNotIdempotent | BuildEnv.MergeIdempotent |
