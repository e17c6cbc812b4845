/**
 * The CDN stage: one invalidation of every path of the distribution, unless
 * no distribution is configured or dry-run mode is on. The caller reference
 * is the current time in whole seconds, written in decimal; the clock is a
 * parameter.
 */
module Cdn {
  import opened Effects
  import opened Config
  import opened Build

  /** The one path pattern the stage invalidates: everything. */
  const EveryPath: seq<string> := ["/*"]

  function DigitChar(d: nat): (c: char)
    requires d < 10
    ensures '0' <= c <= '9'
  {
    ['0', '1', '2', '3', '4', '5', '6', '7', '8', '9'][d]
  }

  function DigitValue(c: char): nat
    requires '0' <= c <= '9'
  {
    (c as int - '0' as int) as nat
  }

  /** Python's `str(n)` for a non-negative integer: decimal digits, no leading zero. */
  function DecimalString(n: nat): (s: string)
    ensures |s| >= 1 && (forall i :: 0 <= i < |s| ==> '0' <= s[i] <= '9')
    ensures |s| > 1 ==> s[0] != '0'
  {
    if n < 10 then [DigitChar(n)] else DecimalString(n / 10) + [DigitChar(n % 10)]
  }

  /** The value of a string of decimal digits. */
  function DecimalValue(s: string): nat
    requires forall i :: 0 <= i < |s| ==> '0' <= s[i] <= '9'
  {
    if s == [] then 0 else DecimalValue(s[..|s| - 1]) * 10 + DigitValue(s[|s| - 1])
  }

  /** The caller reference reads back as the time it was made from, so distinct seconds give distinct references. */
  lemma {:induction false} DecimalRoundTrip(n: nat)
    ensures DecimalValue(DecimalString(n)) == n
    decreases n
  {
    var s := DecimalString(n);
    if n >= 10 {
      DecimalRoundTrip(n / 10);
      assert s[..|s| - 1] == DecimalString(n / 10);
    }
    assert DigitValue(DigitChar(n % 10)) == n % 10;
  }

  lemma DistinctReferences(t1: nat, t2: nat)
    requires t1 != t2
    ensures DecimalString(t1) != DecimalString(t2)
  {
    DecimalRoundTrip(t1);
    DecimalRoundTrip(t2);
  }

  /** Whether the stage calls the CDN at all. */
  predicate Invalidates(env: Env) {
    env.cloudfrontDistributionId != "" && !DryRun(env)
  }

  /** The request the stage sends: every path, one item, the time as caller reference. */
  function InvalidationRequest(dist: string, now: nat): Event {
    CreateInvalidation(dist, EveryPath, |EveryPath|, DecimalString(now))
  }

  function CfInvalidate(env: Env, cloud: Cloud, now: nat): (s: Step)
    // the only call ever made is the one invalidation, and only when configured and not dry
    ensures ProviderCalls(s.events) ==
      (if Invalidates(env) then [InvalidationRequest(env.cloudfrontDistributionId, now)] else [])
    // the stage fails exactly when that call fails
    ensures s.fault.Some? <==> Invalidates(env) && !cloud.invalidateSucceeds
    ensures s.fault.Some? ==> s.fault.value == ProviderError("create_invalidation")
  {
    var dist := env.cloudfrontDistributionId;
    if dist == "" then Step([Log(NoDistribution)], None)
    else if DryRun(env) then Step([Log(DryInvalidate(dist))], None)
    else
      var request := InvalidationRequest(dist, now);
      var created := Log(InvalidationCreated(cloud.invalidationId));
      RequestCalls(request, created);
      if !cloud.invalidateSucceeds then Step([request], Some(ProviderError("create_invalidation")))
      else Step([request, created], None)
  }

  /** The request is the one provider call of either trace the stage can leave; a log line is none. */
  lemma RequestCalls(request: Event, created: Event)
    requires request.CreateInvalidation? && created.Log?
    ensures ProviderCalls([request]) == [request] && ProviderCalls([request, created]) == [request]
  {
    SnocProviderCalls([], request);
    assert [] + [request] == [request];
    SnocProviderCalls([request], created);
    assert [request] + [created] == [request, created];
  }

  /** What the operator is told: why nothing was sent, or the id of the created invalidation. */
  lemma InvalidateReports(env: Env, cloud: Cloud, now: nat)
    ensures var s := CfInvalidate(env, cloud, now);
      (Log(NoDistribution) in s.events <==> env.cloudfrontDistributionId == "")
      && (Log(DryInvalidate(env.cloudfrontDistributionId)) in s.events
          <==> env.cloudfrontDistributionId != "" && DryRun(env))
      && (Log(InvalidationCreated(cloud.invalidationId)) in s.events
          <==> Invalidates(env) && cloud.invalidateSucceeds)
  {
  }

  /** The stage never creates a bucket or uploads an object, and changes nothing in dry-run mode. */
  lemma InvalidateTouchesOnlyCdn(env: Env, cloud: Cloud, now: nat)
    ensures forall e :: e in CfInvalidate(env, cloud, now).events ==> !e.CreateBucket? && !e.PutObject? && !e.HeadBucket?
    ensures DryRun(env) ==> Mutations(CfInvalidate(env, cloud, now).events) == []
  {
    var s := CfInvalidate(env, cloud, now);
    if DryRun(env) {
      NoMutations(s.events);
    }
  }
}
