/**
 * The vocabulary shared by every stage of the deploy pipeline: optional
 * values, the calls and log lines a run produces (its trace), and the
 * faults that end a run.
 *
 * Every external collaborator (the storage provider, the CDN, the HTTP
 * endpoints, local tools and files) is represented either by an oracle
 * (a function-typed parameter that answers how the call went) or by an
 * event appended to the trace, so that each stage can be stated in terms
 * of exactly which calls it makes, in what order, with what arguments.
 */
module Effects {

  datatype Option<T> = None | Some(value: T)

  /** One object upload: the descriptor derived for one file of the build output. */
  datatype Upload = Upload(bucket: string, key: string, body: seq<bv8>, contentType: string, cacheControl: string)

  /** A log line, kept as structured data rather than formatted text. */
  datatype Note =
    | WarnNoPublicApi
    | WroteEnvFile(path: string)
    | Built(outDir: string)
    | CheckReport(name: string, passed: bool)
    | BucketExists(bucket: string)
    | CreatingBucket(bucket: string)
    | DryPut(upload: Upload)
    | Progress(count: nat)
    | UploadedTotal(count: nat)
    | NoDistribution
    | DryInvalidate(distributionId: string)
    | InvalidationCreated(invalidationId: string)
    | VerifyFailuresContinuing
    | SnapshotsWritten
    | PlaceholderTile

  /** The external commands the build stage runs. */
  datatype Command = VersionCheck(tool: string) | NpmCi | NpmRunBuild {
    function Argv(): seq<string> {
      match this
      case VersionCheck(tool) => [tool, "-v"]
      case NpmCi => ["npm", "ci"]
      case NpmRunBuild => ["npm", "run", "build"]
    }
  }

  /** Everything a run does that is visible outside the process. */
  datatype Event =
    // storage provider
    | HeadBucket(bucket: string)
    | CreateBucket(bucket: string, locationConstraint: Option<string>)
    | PutObject(upload: Upload)
    // CDN provider
    | CreateInvalidation(distributionId: string, paths: seq<string>, quantity: nat, callerReference: string)
    // health and snapshot endpoints
    | HttpGet(url: string)
    // local tools and files
    | Run(command: Command, cwd: string)
    | WriteText(path: string, text: string)
    // the operator's log
    | Log(note: Note)

  /** Why a stage ended the run. */
  datatype Fault =
    | MissingSetting(name: string)
    | DirNotFound(path: string)
    | MissingTool(tool: string)
    | CommandFailed(command: Command)
    | NoExportDir
    | NoBuildOutput
    | ProviderError(operation: string)
    | HttpError(url: string)

  /** The answers of the storage and CDN providers. */
  datatype Cloud = Cloud(
    bucketExists: string -> bool,     // head_bucket succeeds (false: it raises ClientError)
    createSucceeds: bool,             // create_bucket returns normally
    putSucceeds: string -> bool,      // put_object for this key returns normally
    invalidateSucceeds: bool,         // create_invalidation returns normally
    invalidationId: string)           // the id the CDN assigns

  /** A call that changes remote state: forbidden in dry-run mode. */
  predicate IsMutation(e: Event) {
    e.CreateBucket? || e.PutObject? || e.CreateInvalidation?
  }

  /** A call to the storage or CDN provider, mutating or not. */
  predicate IsProviderCall(e: Event) {
    e.HeadBucket? || IsMutation(e)
  }

  /** The calls that change remote state, in order. */
  function Mutations(trace: seq<Event>): seq<Event> {
    if trace == [] then []
    else
      var e := trace[|trace| - 1];
      Mutations(trace[..|trace| - 1]) + (if IsMutation(e) then [e] else [])
  }

  /** The calls to the storage or CDN provider, in order. */
  function ProviderCalls(trace: seq<Event>): seq<Event> {
    if trace == [] then []
    else
      var e := trace[|trace| - 1];
      ProviderCalls(trace[..|trace| - 1]) + (if IsProviderCall(e) then [e] else [])
  }

  /** The uploads actually sent to the storage provider, in order. */
  function PutsIn(trace: seq<Event>): seq<Upload> {
    if trace == [] then []
    else
      var e := trace[|trace| - 1];
      PutsIn(trace[..|trace| - 1]) + (if e.PutObject? then [e.upload] else [])
  }

  /** The uploads that dry-run mode only logged, in order. */
  function DryPutsIn(trace: seq<Event>): seq<Upload> {
    if trace == [] then []
    else
      var e := trace[|trace| - 1];
      DryPutsIn(trace[..|trace| - 1]) + (if e.Log? && e.note.DryPut? then [e.note.upload] else [])
  }

  /** The counts of the progress lines logged, in order. */
  function ProgressIn(trace: seq<Event>): seq<nat> {
    if trace == [] then []
    else
      var e := trace[|trace| - 1];
      ProgressIn(trace[..|trace| - 1]) + (if e.Log? && e.note.Progress? then [e.note.count] else [])
  }

  /** The bucket-creation requests, in order. */
  function CreatesIn(trace: seq<Event>): seq<Event> {
    if trace == [] then []
    else
      var e := trace[|trace| - 1];
      CreatesIn(trace[..|trace| - 1]) + (if e.CreateBucket? then [e] else [])
  }

  /** The URLs fetched over HTTP, in order. */
  function HttpGetsIn(trace: seq<Event>): seq<string> {
    if trace == [] then []
    else
      var e := trace[|trace| - 1];
      HttpGetsIn(trace[..|trace| - 1]) + (if e.HttpGet? then [e.url] else [])
  }

  // Appending one event extends each view of the trace by at most that event.

  lemma SnocMutations(trace: seq<Event>, e: Event)
    ensures Mutations(trace + [e]) == Mutations(trace) + (if IsMutation(e) then [e] else [])
  {
    assert (trace + [e])[..|trace|] == trace;
  }

  lemma SnocProviderCalls(trace: seq<Event>, e: Event)
    ensures ProviderCalls(trace + [e]) == ProviderCalls(trace) + (if IsProviderCall(e) then [e] else [])
  {
    assert (trace + [e])[..|trace|] == trace;
  }

  lemma SnocPuts(trace: seq<Event>, e: Event)
    ensures PutsIn(trace + [e]) == PutsIn(trace) + (if e.PutObject? then [e.upload] else [])
  {
    assert (trace + [e])[..|trace|] == trace;
  }

  lemma SnocDryPuts(trace: seq<Event>, e: Event)
    ensures DryPutsIn(trace + [e]) == DryPutsIn(trace) + (if e.Log? && e.note.DryPut? then [e.note.upload] else [])
  {
    assert (trace + [e])[..|trace|] == trace;
  }

  lemma SnocProgress(trace: seq<Event>, e: Event)
    ensures ProgressIn(trace + [e]) == ProgressIn(trace) + (if e.Log? && e.note.Progress? then [e.note.count] else [])
  {
    assert (trace + [e])[..|trace|] == trace;
  }

  lemma SnocCreates(trace: seq<Event>, e: Event)
    ensures CreatesIn(trace + [e]) == CreatesIn(trace) + (if e.CreateBucket? then [e] else [])
  {
    assert (trace + [e])[..|trace|] == trace;
  }

  lemma SnocHttpGets(trace: seq<Event>, e: Event)
    ensures HttpGetsIn(trace + [e]) == HttpGetsIn(trace) + (if e.HttpGet? then [e.url] else [])
  {
    assert (trace + [e])[..|trace|] == trace;
  }

  /** The provider-call views of a concatenation are the concatenations of the views. */
  lemma ConcatCalls(a: seq<Event>, b: seq<Event>)
    ensures Mutations(a + b) == Mutations(a) + Mutations(b)
    ensures ProviderCalls(a + b) == ProviderCalls(a) + ProviderCalls(b)
    ensures CreatesIn(a + b) == CreatesIn(a) + CreatesIn(b)
    ensures HttpGetsIn(a + b) == HttpGetsIn(a) + HttpGetsIn(b)
  {
    ConcatMutations(a, b);
    ConcatProviderCalls(a, b);
    ConcatCreates(a, b);
    ConcatHttpGets(a, b);
  }

  lemma {:induction false} ConcatMutations(a: seq<Event>, b: seq<Event>)
    ensures Mutations(a + b) == Mutations(a) + Mutations(b)
    decreases |b|
  {
    if b == [] {
      assert a + b == a;
    } else {
      var b' := b[..|b| - 1];
      assert (a + b)[..|a + b| - 1] == a + b';
      ConcatMutations(a, b');
    }
  }

  lemma {:induction false} ConcatProviderCalls(a: seq<Event>, b: seq<Event>)
    ensures ProviderCalls(a + b) == ProviderCalls(a) + ProviderCalls(b)
    decreases |b|
  {
    if b == [] {
      assert a + b == a;
    } else {
      var b' := b[..|b| - 1];
      assert (a + b)[..|a + b| - 1] == a + b';
      ConcatProviderCalls(a, b');
    }
  }

  lemma {:induction false} ConcatCreates(a: seq<Event>, b: seq<Event>)
    ensures CreatesIn(a + b) == CreatesIn(a) + CreatesIn(b)
    decreases |b|
  {
    if b == [] {
      assert a + b == a;
    } else {
      var b' := b[..|b| - 1];
      assert (a + b)[..|a + b| - 1] == a + b';
      ConcatCreates(a, b');
    }
  }

  lemma {:induction false} ConcatHttpGets(a: seq<Event>, b: seq<Event>)
    ensures HttpGetsIn(a + b) == HttpGetsIn(a) + HttpGetsIn(b)
    decreases |b|
  {
    if b == [] {
      assert a + b == a;
    } else {
      var b' := b[..|b| - 1];
      assert (a + b)[..|a + b| - 1] == a + b';
      ConcatHttpGets(a, b');
    }
  }

  /** The upload views of a concatenation are the concatenations of the views. */
  lemma ConcatUploads(a: seq<Event>, b: seq<Event>)
    ensures PutsIn(a + b) == PutsIn(a) + PutsIn(b)
    ensures DryPutsIn(a + b) == DryPutsIn(a) + DryPutsIn(b)
    ensures ProgressIn(a + b) == ProgressIn(a) + ProgressIn(b)
  {
    ConcatPuts(a, b);
    ConcatDryPuts(a, b);
    ConcatProgress(a, b);
  }

  lemma {:induction false} ConcatPuts(a: seq<Event>, b: seq<Event>)
    ensures PutsIn(a + b) == PutsIn(a) + PutsIn(b)
    decreases |b|
  {
    if b == [] {
      assert a + b == a;
    } else {
      var b' := b[..|b| - 1];
      assert (a + b)[..|a + b| - 1] == a + b';
      ConcatPuts(a, b');
    }
  }

  lemma {:induction false} ConcatDryPuts(a: seq<Event>, b: seq<Event>)
    ensures DryPutsIn(a + b) == DryPutsIn(a) + DryPutsIn(b)
    decreases |b|
  {
    if b == [] {
      assert a + b == a;
    } else {
      var b' := b[..|b| - 1];
      assert (a + b)[..|a + b| - 1] == a + b';
      ConcatDryPuts(a, b');
    }
  }

  lemma {:induction false} ConcatProgress(a: seq<Event>, b: seq<Event>)
    ensures ProgressIn(a + b) == ProgressIn(a) + ProgressIn(b)
    decreases |b|
  {
    if b == [] {
      assert a + b == a;
    } else {
      var b' := b[..|b| - 1];
      assert (a + b)[..|a + b| - 1] == a + b';
      ConcatProgress(a, b');
    }
  }

  /** A trace with no provider call in it has no provider calls and no mutations. */
  lemma {:induction false} NoProviderCalls(trace: seq<Event>)
    requires forall e :: e in trace ==> !IsProviderCall(e)
    ensures ProviderCalls(trace) == [] && Mutations(trace) == [] && CreatesIn(trace) == []
    decreases |trace|
  {
    if trace != [] {
      NoProviderCalls(trace[..|trace| - 1]);
    }
  }

  /** A trace with no mutating call in it has no mutations and no bucket creation. */
  lemma {:induction false} NoMutations(trace: seq<Event>)
    requires forall e :: e in trace ==> !IsMutation(e)
    ensures Mutations(trace) == [] && CreatesIn(trace) == []
    decreases |trace|
  {
    if trace != [] {
      NoMutations(trace[..|trace| - 1]);
    }
  }
}
