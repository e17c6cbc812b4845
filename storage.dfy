/**
 * The sync stage: upload every regular file of the build output to the
 * bucket under an optional key prefix, provisioning the bucket first when
 * the probe says it is missing. In dry-run mode every mutating call is
 * replaced by a log line.
 */
module Storage {
  import opened Effects
  import opened Text
  import opened Config
  import opened Headers
  import opened Build

  /** One entry of the recursive listing of the output directory, in listing order. */
  datatype Entry = Entry(rel: string, isFile: bool, body: seq<bv8>)

  datatype SyncOutcome = Synced(uploaded: nat) | SyncFailed(fault: Fault)

  const DefaultRegion := "us-east-1"

  /** Uploads between two progress lines. */
  const ProgressEvery: nat := 50

  /** S3_PREFIX with leading and trailing slashes removed. */
  function NormalizePrefix(raw: string): (prefix: string)
    ensures prefix == "" || (prefix[0] != '/' && prefix[|prefix| - 1] != '/')
    // a slice of the setting with only '/' cut off on either side
    ensures StripsTo(raw, prefix, '/')
  {
    StripChar(raw, '/')
  }

  /** The object key of a file: `prefix/rel` under a prefix, `rel` alone without one. */
  function ObjectKey(prefix: string, rel: string): (key: string)
    ensures prefix == "" ==> key == rel
    ensures prefix != "" ==> StartsWith(key, prefix + "/") && key[|prefix| + 1..] == rel
  {
    if prefix != "" then prefix + "/" + rel else rel
  }

  /** The region the request is made for: AWS_REGION, or the default region when unset. */
  function EffectiveRegion(awsRegion: string): (region: string)
    ensures region != ""
    ensures awsRegion != "" ==> region == awsRegion
    ensures awsRegion == "" ==> region == DefaultRegion
  {
    if awsRegion != "" then awsRegion else DefaultRegion
  }

  /**
   * The location constraint sent with a bucket creation: present exactly when
   * the effective region is not the default one, and then it is AWS_REGION.
   */
  function LocationConstraint(awsRegion: string): (lc: Option<string>)
    ensures lc.Some? <==> awsRegion != "" && awsRegion != DefaultRegion
    ensures lc.Some? ==> lc.value == awsRegion
  {
    if EffectiveRegion(awsRegion) != DefaultRegion then Some(awsRegion) else None
  }

  /**
   * The upload descriptor of one file. The headers are derived from the file's
   * full path under the output directory, not from its relative path.
   */
  function PlannedUpload(bucket: string, prefix: string, outDir: string, e: Entry, mime: string -> Option<string>): (u: Upload)
    ensures u.bucket == bucket && u.key == ObjectKey(prefix, e.rel) && u.body == e.body
    ensures u.contentType != ""
    // both headers are guessed from the file's full path under the output directory
    ensures Headers(u.contentType, u.cacheControl) == GuessHeaders(JoinPath(outDir, e.rel), mime)
  {
    var h := GuessHeaders(JoinPath(outDir, e.rel), mime);
    Upload(bucket, ObjectKey(prefix, e.rel), e.body, h.contentType, h.cacheControl)
  }

  /** The uploads of the regular files among `entries`, in listing order. */
  function Plan(bucket: string, prefix: string, outDir: string, entries: seq<Entry>, mime: string -> Option<string>): seq<Upload> {
    if entries == [] then []
    else
      var e := entries[|entries| - 1];
      Plan(bucket, prefix, outDir, entries[..|entries| - 1], mime)
      + (if e.isFile then [PlannedUpload(bucket, prefix, outDir, e, mime)] else [])
  }

  /** The running counts after which a progress line is logged, up to `n` uploads. */
  function Milestones(n: nat): seq<nat> {
    if n == 0 then [] else Milestones(n - 1) + (if n % ProgressEvery == 0 then [n] else [])
  }

  /** Every uploaded key has succeeded. */
  predicate AllStored(puts: seq<Upload>, cloud: Cloud) {
    forall u :: u in puts ==> cloud.putSucceeds(u.key)
  }

  /** The position of the first upload the provider rejects, or the plan's length when none is. */
  function FirstFailure(plan: seq<Upload>, cloud: Cloud): (f: nat)
    ensures f <= |plan|
    ensures forall j :: 0 <= j < f ==> cloud.putSucceeds(plan[j].key)
    ensures f < |plan| ==> !cloud.putSucceeds(plan[f].key)
  {
    if plan == [] then 0
    else
      var init := plan[..|plan| - 1];
      var f := FirstFailure(init, cloud);
      if f < |init| then f
      else if cloud.putSucceeds(plan[|plan| - 1].key) then |plan|
      else |init|
  }

  lemma AllStoredIffNoFailure(plan: seq<Upload>, cloud: Cloud)
    ensures AllStored(plan, cloud) <==> FirstFailure(plan, cloud) == |plan|
  {
    var f := FirstFailure(plan, cloud);
    if f < |plan| {
      assert plan[f] in plan;
    } else {
      forall u | u in plan
        ensures cloud.putSucceeds(u.key)
      {
        var j :| 0 <= j < |plan| && plan[j] == u;
      }
    }
  }

  /**
   * Bucket provisioning: probe the bucket; when the probe fails, log and
   * (unless in dry-run mode) create it, with the region's location constraint.
   */
  function ProvisionBucket(bucket: string, awsRegion: string, dry: bool, cloud: Cloud): (s: Step)
    ensures |s.events| > 0 && s.events[0] == HeadBucket(bucket)
    ensures CreatesIn(s.events) ==
      if !cloud.bucketExists(bucket) && !dry then [CreateBucket(bucket, LocationConstraint(awsRegion))] else []
    ensures s.fault.None? <==> cloud.bucketExists(bucket) || dry || cloud.createSucceeds
    ensures s.fault.Some? ==> s.fault.value == ProviderError("create_bucket")
    ensures dry ==> Mutations(s.events) == []
    ensures PutsIn(s.events) == [] && DryPutsIn(s.events) == [] && ProgressIn(s.events) == []
  {
    var found := cloud.bucketExists(bucket);
    var probe := [HeadBucket(bucket), Log(if found then BucketExists(bucket) else CreatingBucket(bucket))];
    ProbeViews(bucket, probe[1].note);
    if found || dry then Step(probe, None)
    else
      var create := CreateBucket(bucket, LocationConstraint(awsRegion));
      SnocMutations(probe, create);
      SnocCreates(probe, create);
      SnocPuts(probe, create);
      SnocDryPuts(probe, create);
      SnocProgress(probe, create);
      Step(probe + [create], if cloud.createSucceeds then None else Some(ProviderError("create_bucket")))
  }

  /** The probe and its log line make no change and upload nothing. */
  lemma ProbeViews(bucket: string, note: Note)
    requires !note.DryPut? && !note.Progress?
    ensures var probe := [HeadBucket(bucket), Log(note)];
      Mutations(probe) == [] && CreatesIn(probe) == []
      && PutsIn(probe) == [] && DryPutsIn(probe) == [] && ProgressIn(probe) == []
  {
    var head := [HeadBucket(bucket)];
    assert [] + head == head;
    assert head + [Log(note)] == [HeadBucket(bucket), Log(note)];
    SnocMutations([], HeadBucket(bucket));
    SnocMutations(head, Log(note));
    SnocCreates([], HeadBucket(bucket));
    SnocCreates(head, Log(note));
    SnocPuts([], HeadBucket(bucket));
    SnocPuts(head, Log(note));
    SnocDryPuts([], HeadBucket(bucket));
    SnocDryPuts(head, Log(note));
    SnocProgress([], HeadBucket(bucket));
    SnocProgress(head, Log(note));
  }

  /** Where the upload loop stands: uploads counted, events so far, and whether a put failed. */
  datatype Progressed = Progressed(uploaded: nat, events: seq<Event>, stopped: bool)

  /** One file's turn in the upload loop. */
  function UploadStep(s: Progressed, u: Upload, dry: bool, cloud: Cloud): Progressed {
    if s.stopped then s
    else if dry then s.(events := s.events + [Log(DryPut(u))])
    else if !cloud.putSucceeds(u.key) then Progressed(s.uploaded, s.events + [PutObject(u)], true)
    else
      var n := s.uploaded + 1;
      var sent := s.events + [PutObject(u)];
      Progressed(n, if n % ProgressEvery == 0 then sent + [Log(Progress(n))] else sent, false)
  }

  /** The upload loop over the planned uploads, in order. */
  function UploadRun(plan: seq<Upload>, dry: bool, cloud: Cloud): Progressed {
    if plan == [] then Progressed(0, [], false)
    else UploadStep(UploadRun(plan[..|plan| - 1], dry, cloud), plan[|plan| - 1], dry, cloud)
  }

  /** What the loop returns: the failure, or the count and the closing total line. */
  function LoopOutcome(p: Progressed): SyncOutcome {
    if p.stopped then SyncFailed(ProviderError("put_object")) else Synced(p.uploaded)
  }

  function LoopEvents(p: Progressed): seq<Event> {
    if p.stopped then p.events else p.events + [Log(UploadedTotal(p.uploaded))]
  }

  /**
   * The upload loop: one put per regular file, in listing order, counting the
   * uploads and logging progress every fifty; in dry-run mode each put is only
   * logged. Stops at the first put that fails; otherwise logs the total.
   */
  method UploadFiles(bucket: string, prefix: string, outDir: string, entries: seq<Entry>, mime: string -> Option<string>,
                     dry: bool, cloud: Cloud)
    returns (outcome: SyncOutcome, trace: seq<Event>)
    ensures var p := UploadRun(Plan(bucket, prefix, outDir, entries, mime), dry, cloud);
      outcome == LoopOutcome(p) && trace == LoopEvents(p)
  {
    trace := [];
    var uploaded: nat := 0;
    var i := 0;
    while i < |entries|
      invariant 0 <= i <= |entries|
      invariant UploadRun(Plan(bucket, prefix, outDir, entries[..i], mime), dry, cloud) == Progressed(uploaded, trace, false)
    {
      var e := entries[i];
      if !e.isFile {
        SkipStep(bucket, prefix, outDir, entries, mime, i);
        i := i + 1;
        continue;
      }
      var u := PlannedUpload(bucket, prefix, outDir, e, mime);
      FileStep(bucket, prefix, outDir, entries, mime, i, dry, cloud);
      var stopped;
      uploaded, trace, stopped := UploadOne(u, dry, cloud, uploaded, trace);
      if stopped {
        FailureEndsLoop(bucket, prefix, outDir, entries, mime, i, dry, cloud);
        return SyncFailed(ProviderError("put_object")), trace;
      }
      i := i + 1;
    }
    assert entries[..i] == entries;
    trace := trace + [Log(UploadedTotal(uploaded))];
    outcome := Synced(uploaded);
  }

  /**
   * One regular file's turn in the loop: in dry-run mode the upload is only
   * logged; otherwise it is sent, and a rejected put stops the loop, while a
   * stored one is counted, with a progress line every fifty.
   */
  method UploadOne(u: Upload, dry: bool, cloud: Cloud, uploaded: nat, trace: seq<Event>)
    returns (count: nat, events: seq<Event>, stopped: bool)
    ensures Progressed(count, events, stopped) == UploadStep(Progressed(uploaded, trace, false), u, dry, cloud)
  {
    count, stopped := uploaded, false;
    if dry {
      events := trace + [Log(DryPut(u))];
      return;
    }
    events := trace + [PutObject(u)];
    if !cloud.putSucceeds(u.key) {
      stopped := true;
      return;
    }
    count := uploaded + 1;
    if count % ProgressEvery == 0 {
      events := events + [Log(Progress(count))];
    }
  }

  /** The plan of one more entry. */
  lemma PlanStep(bucket: string, prefix: string, outDir: string, entries: seq<Entry>, mime: string -> Option<string>, i: nat)
    requires i < |entries|
    ensures Plan(bucket, prefix, outDir, entries[..i + 1], mime) ==
      Plan(bucket, prefix, outDir, entries[..i], mime)
      + (if entries[i].isFile then [PlannedUpload(bucket, prefix, outDir, entries[i], mime)] else [])
  {
    assert entries[..i + 1][..i] == entries[..i];
  }

  /** An entry that is not a regular file adds nothing to the plan. */
  lemma SkipStep(bucket: string, prefix: string, outDir: string, entries: seq<Entry>, mime: string -> Option<string>, i: nat)
    requires i < |entries| && !entries[i].isFile
    ensures Plan(bucket, prefix, outDir, entries[..i + 1], mime) == Plan(bucket, prefix, outDir, entries[..i], mime)
  {
    PlanStep(bucket, prefix, outDir, entries, mime, i);
    var done := Plan(bucket, prefix, outDir, entries[..i], mime);
    assert done + [] == done;
  }

  /** A regular file is one more turn of the loop, with its planned upload. */
  lemma FileStep(bucket: string, prefix: string, outDir: string, entries: seq<Entry>, mime: string -> Option<string>,
                 i: nat, dry: bool, cloud: Cloud)
    requires i < |entries| && entries[i].isFile
    ensures UploadRun(Plan(bucket, prefix, outDir, entries[..i + 1], mime), dry, cloud)
      == UploadStep(UploadRun(Plan(bucket, prefix, outDir, entries[..i], mime), dry, cloud),
                    PlannedUpload(bucket, prefix, outDir, entries[i], mime), dry, cloud)
  {
    PlanStep(bucket, prefix, outDir, entries, mime, i);
    RunStep(Plan(bucket, prefix, outDir, entries[..i], mime), PlannedUpload(bucket, prefix, outDir, entries[i], mime), dry, cloud);
  }

  /** The loop over one more planned upload. */
  lemma RunStep(plan: seq<Upload>, u: Upload, dry: bool, cloud: Cloud)
    ensures UploadRun(plan + [u], dry, cloud) == UploadStep(UploadRun(plan, dry, cloud), u, dry, cloud)
  {
    assert (plan + [u])[..|plan|] == plan;
  }

  /** A put that fails at listing position `i` ends the loop with the events so far. */
  lemma FailureEndsLoop(bucket: string, prefix: string, outDir: string, entries: seq<Entry>, mime: string -> Option<string>,
                        i: nat, dry: bool, cloud: Cloud)
    requires i < |entries| && entries[i].isFile
    requires UploadRun(Plan(bucket, prefix, outDir, entries[..i + 1], mime), dry, cloud).stopped
    ensures UploadRun(Plan(bucket, prefix, outDir, entries, mime), dry, cloud)
      == UploadRun(Plan(bucket, prefix, outDir, entries[..i + 1], mime), dry, cloud)
  {
    var head := entries[..i + 1];
    assert entries == head + entries[i + 1..];
    PlanAppend(bucket, prefix, outDir, head, entries[i + 1..], mime);
    var plan := Plan(bucket, prefix, outDir, entries, mime);
    var k := |Plan(bucket, prefix, outDir, head, mime)|;
    assert plan[..k] == Plan(bucket, prefix, outDir, head, mime);
    StoppedStays(plan, k, dry, cloud);
  }

  /** Once a put has failed, the remaining files change nothing. */
  lemma {:induction false} StoppedStays(plan: seq<Upload>, k: nat, dry: bool, cloud: Cloud)
    requires k <= |plan| && UploadRun(plan[..k], dry, cloud).stopped
    ensures UploadRun(plan, dry, cloud) == UploadRun(plan[..k], dry, cloud)
    decreases |plan| - k
  {
    if k < |plan| {
      assert plan[..k + 1][..k] == plan[..k];
      StoppedStays(plan, k + 1, dry, cloud);
    } else {
      assert plan[..k] == plan;
    }
  }

  datatype SyncRun = SyncRun(outcome: SyncOutcome, events: seq<Event>)

  /**
   * The stage for a given upload plan: the bucket name check, provisioning,
   * then the upload loop over the plan.
   */
  function SyncPlanned(env: Env, plan: seq<Upload>, cloud: Cloud): SyncRun {
    var bucket := env.s3Bucket;
    if bucket == "" then SyncRun(SyncFailed(MissingSetting("S3_BUCKET")), [])
    else
      var provision := ProvisionBucket(bucket, env.awsRegion, DryRun(env), cloud);
      if provision.fault.Some? then SyncRun(SyncFailed(provision.fault.value), provision.events)
      else
        var p := UploadRun(plan, DryRun(env), cloud);
        SyncRun(LoopOutcome(p), provision.events + LoopEvents(p))
  }

  /** The upload plan of the stage: the listing's regular files under the normalised prefix. */
  function SyncPlan(env: Env, outDir: string, entries: seq<Entry>, mime: string -> Option<string>): seq<Upload> {
    Plan(env.s3Bucket, NormalizePrefix(env.s3Prefix), outDir, entries, mime)
  }

  /** The whole stage as a function of the settings, the listing and the provider's answers. */
  function Sync(env: Env, outDir: string, entries: seq<Entry>, mime: string -> Option<string>, cloud: Cloud): SyncRun {
    SyncPlanned(env, SyncPlan(env, outDir, entries, mime), cloud)
  }

  /** The sync stage: the bucket name, provisioning, then the upload loop. */
  method S3UploadDir(env: Env, outDir: string, entries: seq<Entry>, mime: string -> Option<string>, cloud: Cloud)
    returns (outcome: SyncOutcome, trace: seq<Event>)
    ensures SyncRun(outcome, trace) == Sync(env, outDir, entries, mime, cloud)
  {
    var bucket := env.s3Bucket;
    var prefix := NormalizePrefix(env.s3Prefix);
    if bucket == "" {
      return SyncFailed(MissingSetting("S3_BUCKET")), [];
    }
    var dry := DryRun(env);
    var provision := ProvisionBucket(bucket, env.awsRegion, dry, cloud);
    if provision.fault.Some? {
      return SyncFailed(provision.fault.value), provision.events;
    }
    var loopTrace;
    outcome, loopTrace := UploadFiles(bucket, prefix, outDir, entries, mime, dry, cloud);
    trace := provision.events + loopTrace;
  }

  // ---- what the upload loop does ----

  /** The loop never creates a bucket and never changes anything in dry-run mode. */
  lemma {:induction false} LoopCreatesNothing(plan: seq<Upload>, dry: bool, cloud: Cloud)
    ensures CreatesIn(UploadRun(plan, dry, cloud).events) == []
    ensures dry ==> Mutations(UploadRun(plan, dry, cloud).events) == []
    decreases |plan|
  {
    if plan != [] {
      var init := plan[..|plan| - 1];
      var u := plan[|plan| - 1];
      LoopCreatesNothing(init, dry, cloud);
      var s := UploadRun(init, dry, cloud);
      assert UploadRun(plan, dry, cloud) == UploadStep(s, u, dry, cloud);
      if !s.stopped {
        SnocCreates(s.events, Log(DryPut(u)));
        SnocMutations(s.events, Log(DryPut(u)));
        SnocCreates(s.events, PutObject(u));
        SnocCreates(s.events + [PutObject(u)], Log(Progress(s.uploaded + 1)));
      }
    }
  }

  /** In dry-run mode the loop logs every planned upload, sends none and counts zero. */
  lemma {:induction false} DryLoopLogsPlan(plan: seq<Upload>, cloud: Cloud)
    ensures var p := UploadRun(plan, true, cloud);
      !p.stopped && p.uploaded == 0 && DryPutsIn(p.events) == plan && PutsIn(p.events) == []
    decreases |plan|
  {
    if plan != [] {
      var init := plan[..|plan| - 1];
      var u := plan[|plan| - 1];
      DryLoopLogsPlan(init, cloud);
      var s := UploadRun(init, true, cloud);
      assert UploadRun(plan, true, cloud) == UploadStep(s, u, true, cloud);
      SnocDryPuts(s.events, Log(DryPut(u)));
      SnocPuts(s.events, Log(DryPut(u)));
      assert plan == init + [u];
    }
  }

  /** Outside dry-run mode the loop logs no dry put. */
  lemma {:induction false} LiveLoopLogsNoDryPut(plan: seq<Upload>, cloud: Cloud)
    ensures DryPutsIn(UploadRun(plan, false, cloud).events) == []
    decreases |plan|
  {
    if plan != [] {
      var init := plan[..|plan| - 1];
      var u := plan[|plan| - 1];
      LiveLoopLogsNoDryPut(init, cloud);
      var s := UploadRun(init, false, cloud);
      assert UploadRun(plan, false, cloud) == UploadStep(s, u, false, cloud);
      if !s.stopped {
        SnocDryPuts(s.events, PutObject(u));
        SnocDryPuts(s.events + [PutObject(u)], Log(Progress(s.uploaded + 1)));
      }
    }
  }

  /**
   * Outside dry-run mode the loop sends the planned uploads in order up to and
   * including the first one the provider rejects, stops exactly when there is
   * one, and otherwise has counted them all.
   */
  lemma {:induction false} LiveLoopSendsUntilFailure(plan: seq<Upload>, cloud: Cloud)
    ensures SentUntilFailure(plan, UploadRun(plan, false, cloud), cloud)
    decreases |plan|
  {
    if plan != [] {
      var init := plan[..|plan| - 1];
      var u := plan[|plan| - 1];
      assert plan == init + [u];
      LiveLoopSendsUntilFailure(init, cloud);
      SendsStep(init, u, cloud);
    }
  }

  /**
   * Outside dry-run mode the loop stops exactly when some put fails, has then
   * sent every upload up to and including the first failing one, and has
   * otherwise sent and counted them all.
   */
  predicate SentUntilFailure(plan: seq<Upload>, p: Progressed, cloud: Cloud) {
    var f := FirstFailure(plan, cloud);
    (p.stopped <==> f < |plan|)
    && PutsIn(p.events) == (if f < |plan| then plan[..f + 1] else plan)
    && (!p.stopped ==> p.uploaded == |plan|)
  }

  lemma SendsStep(init: seq<Upload>, u: Upload, cloud: Cloud)
    requires SentUntilFailure(init, UploadRun(init, false, cloud), cloud)
    ensures SentUntilFailure(init + [u], UploadRun(init + [u], false, cloud), cloud)
  {
    RunStep(init, u, false, cloud);
    var plan := init + [u];
    assert plan[..|plan| - 1] == init && plan[|plan| - 1] == u;
    if UploadRun(init, false, cloud).stopped {
      var f := FirstFailure(init, cloud);
      assert FirstFailure(plan, cloud) == f;
      assert plan[..f + 1] == init[..f + 1];
    } else {
      SendsStepRunning(init, u, UploadRun(init, false, cloud), cloud);
    }
  }

  /** SendsStep for a loop that has not stopped: the next put is sent, and it stops the loop iff it fails. */
  lemma SendsStepRunning(init: seq<Upload>, u: Upload, s: Progressed, cloud: Cloud)
    requires !s.stopped && SentUntilFailure(init, s, cloud)
    ensures SentUntilFailure(init + [u], UploadStep(s, u, false, cloud), cloud)
  {
    var plan := init + [u];
    assert plan[..|plan| - 1] == init && plan[|plan| - 1] == u;
    assert FirstFailure(init, cloud) == |init|;
    SnocPuts(s.events, PutObject(u));
    if cloud.putSucceeds(u.key) {
      assert FirstFailure(plan, cloud) == |plan|;
      SendsStepStored(init, u, s, cloud);
    } else {
      assert FirstFailure(plan, cloud) == |init|;
      assert plan[..|init| + 1] == plan;
    }
  }

  /** A stored put is counted, and a progress line adds no put. */
  lemma SendsStepStored(init: seq<Upload>, u: Upload, s: Progressed, cloud: Cloud)
    requires !s.stopped && PutsIn(s.events) == init && s.uploaded == |init| && cloud.putSucceeds(u.key)
    ensures var t := UploadStep(s, u, false, cloud);
      !t.stopped && PutsIn(t.events) == init + [u] && t.uploaded == |init + [u]|
  {
    SnocPuts(s.events, PutObject(u));
    SnocPuts(s.events + [PutObject(u)], Log(Progress(s.uploaded + 1)));
  }



  /** The progress lines are logged exactly at the multiples of fifty up to the count. */
  lemma {:induction false} LoopProgress(plan: seq<Upload>, dry: bool, cloud: Cloud)
    ensures var p := UploadRun(plan, dry, cloud);
      ProgressIn(p.events) == Milestones(p.uploaded)
    decreases |plan|
  {
    if plan != [] {
      var init := plan[..|plan| - 1];
      var u := plan[|plan| - 1];
      LoopProgress(init, dry, cloud);
      assert UploadRun(plan, dry, cloud) == UploadStep(UploadRun(init, dry, cloud), u, dry, cloud);
      ProgressKept(UploadRun(init, dry, cloud), u, dry, cloud);
    }
  }

  /** One step of the loop keeps the progress lines at the multiples of fifty. */
  lemma ProgressKept(s: Progressed, u: Upload, dry: bool, cloud: Cloud)
    requires ProgressIn(s.events) == Milestones(s.uploaded)
    ensures var t := UploadStep(s, u, dry, cloud);
      ProgressIn(t.events) == Milestones(t.uploaded)
  {
    var t := UploadStep(s, u, dry, cloud);
    if s.stopped {
      assert t == s;
    } else if dry {
      assert t.events == s.events + [Log(DryPut(u))] && t.uploaded == s.uploaded;
      SnocProgress(s.events, Log(DryPut(u)));
    } else if !cloud.putSucceeds(u.key) {
      assert t.events == s.events + [PutObject(u)] && t.uploaded == s.uploaded;
      SnocProgress(s.events, PutObject(u));
    } else {
      var n := s.uploaded + 1;
      var sent := s.events + [PutObject(u)];
      assert t.uploaded == n;
      assert t.events == if n % ProgressEvery == 0 then sent + [Log(Progress(n))] else sent;
      ProgressStep(s.events, u, s.uploaded);
    }
  }

  /** One successful upload extends the progress lines by the new count when it is a multiple of fifty. */
  lemma ProgressStep(events: seq<Event>, u: Upload, uploaded: nat)
    requires ProgressIn(events) == Milestones(uploaded)
    ensures var n := uploaded + 1;
      var sent := events + [PutObject(u)];
      ProgressIn(if n % ProgressEvery == 0 then sent + [Log(Progress(n))] else sent) == Milestones(n)
  {
    var n := uploaded + 1;
    var sent := events + [PutObject(u)];
    SnocProgress(events, PutObject(u));
    assert ProgressIn(sent) == Milestones(uploaded);
    if n % ProgressEvery == 0 {
      SnocProgress(sent, Log(Progress(n)));
      assert Milestones(n) == Milestones(uploaded) + [n];
    } else {
      assert Milestones(n) == Milestones(uploaded);
    }
  }

  /** The closing total line changes none of the views. */
  lemma TotalLineViews(p: Progressed)
    ensures var t := LoopEvents(p);
      CreatesIn(t) == CreatesIn(p.events) && Mutations(t) == Mutations(p.events) && PutsIn(t) == PutsIn(p.events)
      && DryPutsIn(t) == DryPutsIn(p.events) && ProgressIn(t) == ProgressIn(p.events)
  {
    var total := Log(UploadedTotal(p.uploaded));
    SnocCreates(p.events, total);
    SnocMutations(p.events, total);
    SnocPuts(p.events, total);
    SnocDryPuts(p.events, total);
    SnocProgress(p.events, total);
  }

  // ---- what the whole stage does ----

  /** Past provisioning, the stage's events are the provisioning events followed by the loop's. */
  lemma SyncAfterProvision(env: Env, plan: seq<Upload>, cloud: Cloud)
    requires env.s3Bucket != "" && ProvisionBucket(env.s3Bucket, env.awsRegion, DryRun(env), cloud).fault.None?
    ensures var p := UploadRun(plan, DryRun(env), cloud);
      SyncPlanned(env, plan, cloud)
      == SyncRun(LoopOutcome(p), ProvisionBucket(env.s3Bucket, env.awsRegion, DryRun(env), cloud).events + LoopEvents(p))
  {
  }

  /** The stage makes no call at all exactly when the bucket name is missing, and then fails for it. */
  lemma SyncNeedsBucket(env: Env, plan: seq<Upload>, cloud: Cloud)
    ensures var r := SyncPlanned(env, plan, cloud);
      (r.events == [] <==> env.s3Bucket == "")
      && (env.s3Bucket == "" ==> r.outcome == SyncFailed(MissingSetting("S3_BUCKET")))
  {
  }

  /** With a bucket name, the first call is the probe of that bucket. */
  lemma SyncProbesFirst(env: Env, plan: seq<Upload>, cloud: Cloud)
    requires env.s3Bucket != ""
    ensures var r := SyncPlanned(env, plan, cloud);
      |r.events| > 0 && r.events[0] == HeadBucket(env.s3Bucket)
  {
  }

  /**
   * The bucket is created exactly when the probe failed and dry-run is off,
   * once, with a location constraint exactly outside the default region.
   */
  lemma SyncCreatesBucketOnlyWhenMissing(env: Env, plan: seq<Upload>, cloud: Cloud)
    ensures CreatesIn(SyncPlanned(env, plan, cloud).events) ==
      if env.s3Bucket != "" && !cloud.bucketExists(env.s3Bucket) && !DryRun(env)
      then [CreateBucket(env.s3Bucket, LocationConstraint(env.awsRegion))] else []
  {
    if env.s3Bucket != "" {
      var provision := ProvisionBucket(env.s3Bucket, env.awsRegion, DryRun(env), cloud);
      if provision.fault.None? {
        var p := UploadRun(plan, DryRun(env), cloud);
        ConcatCalls(provision.events, LoopEvents(p));
        TotalLineViews(p);
        LoopCreatesNothing(plan, DryRun(env), cloud);
      }
    }
  }

  /** A failed creation ends the stage before any upload. */
  lemma SyncCreateFailureStops(env: Env, plan: seq<Upload>, cloud: Cloud)
    requires env.s3Bucket != "" && !cloud.bucketExists(env.s3Bucket) && !DryRun(env) && !cloud.createSucceeds
    ensures var r := SyncPlanned(env, plan, cloud);
      r.outcome == SyncFailed(ProviderError("create_bucket")) && PutsIn(r.events) == []
  {
  }

  /** In dry-run mode nothing is changed, every planned upload is logged instead, and the total is zero. */
  lemma SyncDryRunChangesNothing(env: Env, plan: seq<Upload>, cloud: Cloud)
    requires DryRun(env)
    ensures var r := SyncPlanned(env, plan, cloud);
      Mutations(r.events) == [] && PutsIn(r.events) == []
      && (env.s3Bucket != "" ==>
            r.outcome == Synced(0)
            && DryPutsIn(r.events) == plan)
  {
    if env.s3Bucket != "" {
      var provision := ProvisionBucket(env.s3Bucket, env.awsRegion, true, cloud);
      var p := UploadRun(plan, true, cloud);
      ConcatCalls(provision.events, LoopEvents(p));
      ConcatUploads(provision.events, LoopEvents(p));
      TotalLineViews(p);
      LoopCreatesNothing(plan, true, cloud);
      DryLoopLogsPlan(plan, cloud);
    }
  }

  /**
   * Outside dry-run mode, once the bucket is there: the stage succeeds exactly
   * when every put succeeds, and then it has sent one put per regular file, in
   * listing order, with that file's headers, counted them all, and logged
   * progress at every multiple of fifty. No upload is merely logged.
   */
  lemma SyncUploadsEveryFile(env: Env, plan: seq<Upload>, cloud: Cloud)
    requires !DryRun(env) && env.s3Bucket != "" && (cloud.bucketExists(env.s3Bucket) || cloud.createSucceeds)
    ensures var r := SyncPlanned(env, plan, cloud);
      (r.outcome.Synced? <==> AllStored(plan, cloud))
      && DryPutsIn(r.events) == []
      && (r.outcome.Synced? ==>
            PutsIn(r.events) == plan && r.outcome.uploaded == |plan| && ProgressIn(r.events) == Milestones(|plan|))
  {
    var provision := ProvisionBucket(env.s3Bucket, env.awsRegion, false, cloud);
    var p := UploadRun(plan, false, cloud);
    ConcatUploads(provision.events, LoopEvents(p));
    TotalLineViews(p);
    LiveLoopSendsUntilFailure(plan, cloud);
    AllStoredIffNoFailure(plan, cloud);
    LiveLoopLogsNoDryPut(plan, cloud);
    LoopProgress(plan, false, cloud);
  }

  /** Outside dry-run mode, a failed upload is the first failing one, and nothing is sent after it. */
  lemma SyncStopsAtFirstFailedPut(env: Env, plan: seq<Upload>, cloud: Cloud)
    requires !DryRun(env) && env.s3Bucket != "" && (cloud.bucketExists(env.s3Bucket) || cloud.createSucceeds)
    requires SyncPlanned(env, plan, cloud).outcome.SyncFailed?
    ensures var r := SyncPlanned(env, plan, cloud);
      var f := FirstFailure(plan, cloud);
      r.outcome.fault == ProviderError("put_object") && f < |plan| && PutsIn(r.events) == plan[..f + 1]
  {
    var provision := ProvisionBucket(env.s3Bucket, env.awsRegion, false, cloud);
    var p := UploadRun(plan, false, cloud);
    SyncAfterProvision(env, plan, cloud);
    LiveLoopSendsUntilFailure(plan, cloud);
    FailedLoopPuts(SyncPlanned(env, plan, cloud), provision.events, p, plan, cloud);
  }

  /** A stage that failed in the loop has sent exactly the loop's puts, up to the first rejected one. */
  lemma FailedLoopPuts(r: SyncRun, before: seq<Event>, p: Progressed, plan: seq<Upload>, cloud: Cloud)
    requires r == SyncRun(LoopOutcome(p), before + LoopEvents(p)) && r.outcome.SyncFailed?
    requires PutsIn(before) == [] && SentUntilFailure(plan, p, cloud)
    ensures var f := FirstFailure(plan, cloud);
      r.outcome.fault == ProviderError("put_object") && f < |plan| && PutsIn(r.events) == plan[..f + 1]
  {
    assert p.stopped;
    assert r.events == before + p.events;
    ConcatPuts(before, p.events);
    assert PutsIn(r.events) == PutsIn(p.events) by {
      assert PutsIn(before) + PutsIn(p.events) == PutsIn(p.events);
    }
  }

  lemma {:induction false} PlanAppend(bucket: string, prefix: string, outDir: string, a: seq<Entry>, b: seq<Entry>, mime: string -> Option<string>)
    ensures Plan(bucket, prefix, outDir, a + b, mime) == Plan(bucket, prefix, outDir, a, mime) + Plan(bucket, prefix, outDir, b, mime)
    decreases |b|
  {
    if b == [] {
      assert a + b == a;
    } else {
      var b' := b[..|b| - 1];
      assert (a + b)[..|a + b| - 1] == a + b';
      PlanAppend(bucket, prefix, outDir, a, b', mime);
    }
  }

}
