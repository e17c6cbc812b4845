/**
 * The health-check stage: up to two probes per configured service, each an
 * HTTP GET whose outcome an oracle answers, followed by one report line per
 * probe. The stage's verdict is true exactly when every probe succeeded.
 */
module Health {
  import opened Effects
  import opened Text
  import opened Config

  /** A planned probe: its display name and the URL it fetches. */
  datatype Probe = Probe(name: string, url: string)

  /** A recorded probe outcome (the response body or error text is not kept). */
  datatype Check = Check(name: string, url: string, passed: bool)

  /** A service base as the stage uses it: trailing slashes removed, "" when unset. */
  function ApiBase(raw: string): (base: string)
    ensures base == "" || base[|base| - 1] != '/'
    ensures raw != "" && raw[|raw| - 1] != '/' ==> base == raw
    ensures StartsWith(raw, base)
    ensures forall i :: |base| <= i < |raw| ==> raw[i] == '/'
  {
    if raw == "" then "" else RStripChar(raw, '/')
  }

  /** The two probes of one service, or none when its base is empty. */
  function ProbesFor(base: string, first: string, firstPath: string, second: string, secondPath: string): seq<Probe> {
    if base == "" then [] else [Probe(first, base + firstPath), Probe(second, base + secondPath)]
  }

  function ForecastProbes(env: Env): seq<Probe> {
    ProbesFor(ApiBase(env.forecastApiBase), "forecast health", "/health", "forecast status", "/public/status")
  }

  function MonteProbes(env: Env): seq<Probe> {
    ProbesFor(ApiBase(env.monteApiBase), "monte health", "/health", "monte status", "/public/status")
  }

  function PortfolioProbes(env: Env): seq<Probe> {
    ProbesFor(ApiBase(env.portfolioApiBase), "portfolio tiles", "/tiles", "portfolio status", "/status")
  }

  /** Every probe the stage attempts, in the order it attempts them. */
  function PlannedProbes(env: Env): seq<Probe> {
    ForecastProbes(env) + MonteProbes(env) + PortfolioProbes(env)
  }

  /** The outcome of each planned probe under the HTTP oracle. */
  function Outcomes(ps: seq<Probe>, httpOk: string -> bool): (cs: seq<Check>)
    ensures |cs| == |ps|
  {
    seq(|ps|, i requires 0 <= i < |ps| => Check(ps[i].name, ps[i].url, httpOk(ps[i].url)))
  }

  predicate AllPassed(checks: seq<Check>) {
    forall i :: 0 <= i < |checks| ==> checks[i].passed
  }

  /** The HTTP requests the probes make, in order. */
  function Requests(checks: seq<Check>): seq<Event> {
    seq(|checks|, i requires 0 <= i < |checks| => HttpGet(checks[i].url))
  }

  /** The report lines, one per probe, in order. */
  function Reports(checks: seq<Check>): seq<Event> {
    seq(|checks|, i requires 0 <= i < |checks| => Log(CheckReport(checks[i].name, checks[i].passed)))
  }

  /** A service is healthy when it is not configured, or both its probes succeed. */
  predicate Healthy(base: string, firstPath: string, secondPath: string, httpOk: string -> bool) {
    base == "" || (httpOk(base + firstPath) && httpOk(base + secondPath))
  }

  /**
   * Runs the probes in order, recording each outcome and clearing the verdict
   * on a failure, then logs one report line per probe.
   */
  method RunProbes(probes: seq<Probe>, httpOk: string -> bool) returns (ok: bool, checks: seq<Check>, trace: seq<Event>)
    ensures checks == Outcomes(probes, httpOk)
    ensures ok <==> AllPassed(checks)
    ensures trace == Requests(checks) + Reports(checks)
  {
    ok := true;
    checks := [];
    trace := [];
    var i := 0;
    while i < |probes|
      invariant 0 <= i <= |probes|
      invariant checks == Outcomes(probes[..i], httpOk)
      invariant ok <==> AllPassed(checks)
      invariant trace == Requests(checks)
    {
      var p := probes[i];
      trace := trace + [HttpGet(p.url)];
      var passed := httpOk(p.url);
      var c := Check(p.name, p.url, passed);
      AllPassedAppend(checks, [c]);
      assert AllPassed([c]) <==> [c][0].passed;
      assert probes[..i + 1] == probes[..i] + [p];
      OutcomesAppend(probes[..i], [p], httpOk);
      checks := checks + [c];
      if !passed {
        ok := false;
      }
      i := i + 1;
    }
    assert probes[..i] == probes;
    var j := 0;
    while j < |checks|
      invariant 0 <= j <= |checks|
      invariant trace == Requests(checks) + Reports(checks[..j])
    {
      trace := trace + [Log(CheckReport(checks[j].name, checks[j].passed))];
      j := j + 1;
    }
    assert checks[..j] == checks;
  }

  /** The health-check stage: every planned probe of the configured services. */
  method VerifyServices(env: Env, httpOk: string -> bool) returns (ok: bool, checks: seq<Check>, trace: seq<Event>)
    ensures checks == Outcomes(PlannedProbes(env), httpOk)
    ensures ok <==> AllPassed(checks)
    ensures trace == Requests(checks) + Reports(checks)
  {
    ok, checks, trace := RunProbes(PlannedProbes(env), httpOk);
  }

  /** With no service configured, nothing is probed and the verdict is true. */
  lemma NothingConfiguredPasses(env: Env, httpOk: string -> bool)
    requires ApiBase(env.forecastApiBase) == "" && ApiBase(env.monteApiBase) == "" && ApiBase(env.portfolioApiBase) == ""
    ensures Outcomes(PlannedProbes(env), httpOk) == []
    ensures AllPassed(Outcomes(PlannedProbes(env), httpOk))
  {
  }

  /** Each configured service adds exactly two probes, so there are at most six. */
  lemma {:induction false} ProbeCount(env: Env)
    ensures |PlannedProbes(env)| ==
      (if ApiBase(env.forecastApiBase) == "" then 0 else 2)
      + (if ApiBase(env.monteApiBase) == "" then 0 else 2)
      + (if ApiBase(env.portfolioApiBase) == "" then 0 else 2)
    ensures |PlannedProbes(env)| <= 6
  {
  }

  lemma OutcomesAppend(a: seq<Probe>, b: seq<Probe>, httpOk: string -> bool)
    ensures Outcomes(a + b, httpOk) == Outcomes(a, httpOk) + Outcomes(b, httpOk)
  {
  }

  lemma AllPassedAppend(a: seq<Check>, b: seq<Check>)
    ensures AllPassed(a + b) <==> AllPassed(a) && AllPassed(b)
  {
    if AllPassed(a) && AllPassed(b) {
      forall i | 0 <= i < |a + b|
        ensures (a + b)[i].passed
      {
        if i >= |a| {
          assert (a + b)[i] == b[i - |a|];
        }
      }
    }
    if AllPassed(a + b) {
      forall i | 0 <= i < |a|
        ensures a[i].passed
      {
        assert (a + b)[i] == a[i];
      }
      forall i | 0 <= i < |b|
        ensures b[i].passed
      {
        assert (a + b)[|a| + i] == b[i];
      }
    }
  }

  /** One service's probes all pass exactly when the service is healthy. */
  lemma ServicePasses(base: string, first: string, firstPath: string, second: string, secondPath: string, httpOk: string -> bool)
    ensures AllPassed(Outcomes(ProbesFor(base, first, firstPath, second, secondPath), httpOk))
      <==> Healthy(base, firstPath, secondPath, httpOk)
  {
    var cs := Outcomes(ProbesFor(base, first, firstPath, second, secondPath), httpOk);
    if base != "" {
      assert cs[0].passed == httpOk(base + firstPath);
      assert cs[1].passed == httpOk(base + secondPath);
    }
  }

  /**
   * The verdict is true exactly when every configured service answers both of
   * its probes; an unconfigured service can never make it false.
   */
  lemma VerdictIffServicesHealthy(env: Env, httpOk: string -> bool)
    ensures AllPassed(Outcomes(PlannedProbes(env), httpOk)) <==>
      Healthy(ApiBase(env.forecastApiBase), "/health", "/public/status", httpOk)
      && Healthy(ApiBase(env.monteApiBase), "/health", "/public/status", httpOk)
      && Healthy(ApiBase(env.portfolioApiBase), "/tiles", "/status", httpOk)
  {
    var f, m, p := ForecastProbes(env), MonteProbes(env), PortfolioProbes(env);
    OutcomesAppend(f + m, p, httpOk);
    OutcomesAppend(f, m, httpOk);
    AllPassedAppend(Outcomes(f, httpOk) + Outcomes(m, httpOk), Outcomes(p, httpOk));
    AllPassedAppend(Outcomes(f, httpOk), Outcomes(m, httpOk));
    ServicePasses(ApiBase(env.forecastApiBase), "forecast health", "/health", "forecast status", "/public/status", httpOk);
    ServicePasses(ApiBase(env.monteApiBase), "monte health", "/health", "monte status", "/public/status", httpOk);
    ServicePasses(ApiBase(env.portfolioApiBase), "portfolio tiles", "/tiles", "portfolio status", "/status", httpOk);
  }
}
