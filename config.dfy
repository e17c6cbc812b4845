/**
 * The run's configuration: eleven named settings, each a string, the empty
 * string meaning "not configured".
 */
module Config {
  import opened Text

  datatype Env = Env(
    nextjsDir: string,
    forecastApiBase: string,
    monteApiBase: string,
    portfolioApiBase: string,
    nextPublicPortfolioApi: string,
    awsRegion: string,
    s3Bucket: string,
    s3Prefix: string,
    cloudfrontDistributionId: string,
    dryRun: string,
    skipNpmCi: string)

  /**
   * One setting after the overlay file has been loaded without override:
   * a name set in the live environment keeps its value (even when that value
   * is empty), otherwise the file's value applies, otherwise "".
   */
  function Lookup(live: map<string, string>, overlay: map<string, string>, name: string): (v: string)
    ensures name in live ==> v == live[name]
    ensures name !in live && name in overlay ==> v == overlay[name]
    ensures name !in live && name !in overlay ==> v == ""
  {
    if name in live then live[name] else if name in overlay then overlay[name] else ""
  }

  /** Resolves every setting from the live environment and the overlay file. */
  function LoadEnv(live: map<string, string>, overlay: map<string, string>): Env {
    Env(
      Lookup(live, overlay, "NEXTJS_DIR"),
      Lookup(live, overlay, "FORECAST_API_BASE"),
      Lookup(live, overlay, "MONTE_API_BASE"),
      Lookup(live, overlay, "PORTFOLIO_API_BASE"),
      Lookup(live, overlay, "NEXT_PUBLIC_PORTFOLIO_API"),
      Lookup(live, overlay, "AWS_REGION"),
      Lookup(live, overlay, "S3_BUCKET"),
      Lookup(live, overlay, "S3_PREFIX"),
      Lookup(live, overlay, "CLOUDFRONT_DISTRIBUTION_ID"),
      Lookup(live, overlay, "DRY_RUN"),
      Lookup(live, overlay, "SKIP_NPM_CI"))
  }

  /** A boolean flag: set when its value, lower-cased, is exactly "true". */
  predicate IsTrue(flag: string) {
    Lower(flag) == "true"
  }

  lemma IsTrueCaseInsensitive(flag: string)
    ensures IsTrue(flag) <==>
      |flag| == 4 && AsciiLower(flag[0]) == 't' && AsciiLower(flag[1]) == 'r'
      && AsciiLower(flag[2]) == 'u' && AsciiLower(flag[3]) == 'e'
  {
    if |flag| == 4 {
      var l := Lower(flag);
      assert l == [l[0], l[1], l[2], l[3]];
    }
  }

  /** Dry-run mode: every mutating provider call is replaced by a log line. */
  predicate DryRun(env: Env) {
    IsTrue(env.dryRun)
  }

  /**
   * The API base embedded in the static build: the explicit override when it
   * is set, otherwise the portfolio API base; "" when neither is set.
   */
  function PublicApi(env: Env): (api: string)
    ensures api == "" <==> env.nextPublicPortfolioApi == "" && env.portfolioApiBase == ""
    ensures env.nextPublicPortfolioApi != "" ==> api == env.nextPublicPortfolioApi
    ensures env.nextPublicPortfolioApi == "" ==> api == env.portfolioApiBase
  {
    if env.nextPublicPortfolioApi != "" then env.nextPublicPortfolioApi else env.portfolioApiBase
  }
}
