/**
 * `backup_executor.execute_mongodump`: one backup run of a given kind. It names the
 * output folder, announces the run, dumps each configured collection in order with
 * the external `mongodump` tool, reports every failure as it happens, stops at the
 * first "executable not found" or at the first launch that raises any other exception
 * (which then leaves the run), and ends with a failure or a success summary.
 *
 * The environment is an oracle (`RunEnv`): what the tool did for each collection,
 * the clock, free disk space, the files on disk. What the run does to the world is
 * returned as a trace of `Event`s, in the order the script performs them.
 */
module BackupExecutor {
  import opened Wrappers
  import opened Text
  import opened Calendar
  import opened FolderSize

  /** The keys of `config.json` the core reads (Telegram credentials are not part of this model). */
  datatype Config = Config(
    databaseName: string,
    mongodbUri: string,
    collections: seq<string>,
    localBackupPath: string,
    weeklyBackupDay: Option<string>)

  /** What `subprocess.run(..., check=True)` did: the exit code with the captured
      standard error; `FileNotFoundError` because `mongodump` is not on the PATH; or
      any other exception, which the loop does not catch (an `OSError` such as
      `PermissionError` for a file that cannot be executed, or a `UnicodeDecodeError`
      while the output is decoded as text). */
  datatype ToolOutcome = Exited(code: int, stderr: string) | ExecutableNotFound | Raised(error: PyError)

  /** The environment's answer for one collection: the tool's outcome, the clock and
      the free bytes read for an error report, and the files on disk (path to size)
      once the tool has returned. */
  datatype Attempt = Attempt(outcome: ToolOutcome, errorTime: DateTime, freeBytes: nat, files: map<string, nat>)

  /** `mongodump --version` (run without `check=True`): it exits with a code and its
      standard output split into lines, or the launch raises (`FileNotFoundError` for a
      missing executable, `PermissionError` or another `OSError`, or `UnicodeDecodeError`
      while decoding the output). */
  datatype VersionProbe = VersionRaised(error: PyError) | VersionExited(code: int, stdoutLines: seq<string>)

  /** A Python exception leaving `execute_mongodump`: `type(e).__name__` and `str(e)`. */
  datatype PyError = PyError(typeName: string, message: string)

  /** Everything the run learns from its environment. */
  datatype RunEnv = RunEnv(
    now: DateTime,
    makedirsError: Option<PyError>,
    attempts: seq<Attempt>,
    startTime: DateTime,
    endTime: DateTime,
    outputTree: Option<seq<WalkDir>>,
    freeBeforeBytes: nat,
    freeAfterBytes: nat,
    version: VersionProbe)

  /** The environment answers once for every configured collection. */
  predicate EnvFits(config: Config, env: RunEnv) {
    ValidDateTime(env.now) && |env.attempts| == |config.collections|
  }

  /** The "possible cause" line of a failure report. */
  datatype Cause = ConnectionOrAuthentication | CommandNotRecognized | UnknownSeeErrorOutput

  /** Classification of a nonzero exit code of `mongodump`. */
  function Classify(code: int): (c: Cause)
    ensures c == ConnectionOrAuthentication <==> code == 1
    ensures c == CommandNotRecognized <==> code == 100
    ensures c == UnknownSeeErrorOutput <==> code != 1 && code != 100
  {
    if code == 1 then ConnectionOrAuthentication
    else if code == 100 then CommandNotRecognized
    else UnknownSeeErrorOutput
  }

  /** One entry of `error_details`. */
  datatype ErrorBlock =
    | DumpFailed(time: DateTime, collection: string, command: string, returnCode: int,
                 attachmentName: string, freeBytes: nat, cause: Cause)
    | ToolMissing(time: DateTime, freeBytes: nat)

  /** The notifications the run sends; their emoji and Markdown are not modelled. */
  datatype Message =
    | StartNotice(backupType: string, databaseName: string, outputPath: string, collections: seq<string>)
    | ErrorNotice(block: ErrorBlock)
    | FailureSummary(successCount: nat, configured: nat, outputPath: string, errors: seq<ErrorBlock>)
    | SuccessSummary(backupType: string, successCount: nat, totalSize: SizeText, startTime: DateTime,
                     endTime: DateTime, toolVersion: string, freeBeforeBytes: nat, freeAfterBytes: nat,
                     collectionSizes: seq<(string, nat)>, outputPath: string)
    | CriticalError(typeName: string, detail: string)

  /** The effects of a run, in order. `RunTool` is an attempt to launch a program with
      the given argument vector: it is recorded whether or not a process came up. */
  datatype Event =
    | MakeDirs(path: string)
    | RunTool(argv: seq<string>)
    | WriteFile(path: string, content: string)
    | Notify(message: Message, attachment: Option<string>)

  datatype RunResult = RunResult(events: seq<Event>, raised: Option<PyError>)

  /** The folder of a run: monthly runs share one per month, any other kind gets one per day. */
  function FolderName(backupType: string, now: DateTime): string
    requires ValidDateTime(now)
  {
    var d := now.date;
    if backupType == "monthly" then
      "backup_mensual_" + PadDigits(d.year, 4) + "-" + PadDigits(d.month, 2)
    else
      "backup_semanal_" + PadDigits(d.year, 4) + "-" + PadDigits(d.month, 2) + "-" + PadDigits(d.day, 2)
  }

  /** The run's folder inside the configured backup directory. */
  function OutputPath(config: Config, backupType: string, now: DateTime): string
    requires ValidDateTime(now)
  {
    PathJoin(config.localBackupPath, FolderName(backupType, now))
  }

  /** `now.strftime('%Y%m%d_%H%M%S')`, used in error file names. */
  function FileStamp(now: DateTime): string
    requires ValidDateTime(now)
  {
    var d := now.date;
    PadDigits(d.year, 4) + PadDigits(d.month, 2) + PadDigits(d.day, 2) + "_"
      + PadDigits(now.hour, 2) + PadDigits(now.minute, 2) + PadDigits(now.second, 2)
  }

  /** What stays fixed while the collections are dumped. */
  datatype RunContext = RunContext(config: Config, outputPath: string, fileStamp: string)

  /** The value given to `flag` in a list of `--flag value` pairs, read pair by pair. */
  function OptionValue(options: seq<string>, flag: string): Option<string>
    decreases |options|
  {
    if |options| < 2 then None
    else if options[0] == flag then Some(options[1])
    else OptionValue(options[2..], flag)
  }

  /** The `mongodump` command line for one collection. */
  function DumpCommand(ctx: RunContext, collection: string): seq<string>
  {
    ["mongodump", "--uri", ctx.config.mongodbUri, "--db", ctx.config.databaseName,
     "--collection", collection, "--out", ctx.outputPath, "--gzip"]
  }

  const VersionCommand: seq<string> := ["mongodump", "--version"]

  /** Where a successful dump leaves its compressed file. */
  function ArtifactPath(ctx: RunContext, collection: string): string
  {
    PathJoin(PathJoin(ctx.outputPath, ctx.config.databaseName), collection + ".bson.gz")
  }

  /** The file a failed dump's standard error goes to. */
  function ErrorFilePath(ctx: RunContext, collection: string): string
  {
    PathJoin(ctx.outputPath, "error_" + collection + "_" + ctx.fileStamp + ".txt")
  }

  predicate Succeeded(a: Attempt) { a.outcome.Exited? && a.outcome.code == 0 }

  /** The attempt is caught by one of the two `except` clauses and records an error block. */
  predicate Failed(a: Attempt) { (a.outcome.Exited? && a.outcome.code != 0) || a.outcome.ExecutableNotFound? }

  /** The attempt ends the loop: the `break` after a missing executable, or an exception
      leaving the loop. */
  predicate Fatal(a: Attempt) { a.outcome.ExecutableNotFound? || a.outcome.Raised? }

  // ---------------------------------------------------------------------------
  // `collection_sizes`: a Python dict, kept as an association list with unique keys.

  function DictKeys(d: seq<(string, nat)>): set<string>
  {
    if d == [] then {} else {d[0].0} + DictKeys(d[1..])
  }

  function DictGet(d: seq<(string, nat)>, k: string): (r: Option<nat>)
    ensures r.Some? <==> k in DictKeys(d)
  {
    if d == [] then None else if d[0].0 == k then Some(d[0].1) else DictGet(d[1..], k)
  }

  /** No key occurs twice, as in a Python dict. */
  predicate UniqueKeys(d: seq<(string, nat)>)
  {
    d == [] || (d[0].0 !in DictKeys(d[1..]) && UniqueKeys(d[1..]))
  }

  /** `d[k] = v`: an existing key keeps its place, a new one goes at the end (the order
      `.items()` lists them in). */
  function DictSet(d: seq<(string, nat)>, k: string, v: nat): (r: seq<(string, nat)>)
    ensures DictGet(r, k) == Some(v)
    ensures forall x :: x != k ==> DictGet(r, x) == DictGet(d, x)
    ensures DictKeys(r) == DictKeys(d) + {k}
    ensures UniqueKeys(d) ==> UniqueKeys(r)
  {
    if d == [] then [(k, v)]
    else if d[0].0 == k then [(k, v)] + d[1..]
    else [d[0]] + DictSet(d[1..], k, v)
  }

  /** The order of `DictSet`'s result: an existing key keeps its place and a new key is
      appended. */
  lemma {:induction false} DictSetOrder(d: seq<(string, nat)>, k: string, v: nat)
    ensures k in DictKeys(d) ==>
      |DictSet(d, k, v)| == |d| && forall i :: 0 <= i < |d| ==> DictSet(d, k, v)[i].0 == d[i].0
    ensures k !in DictKeys(d) ==> DictSet(d, k, v) == d + [(k, v)]
  {
    if d != [] && d[0].0 != k {
      DictSetOrder(d[1..], k, v);
      assert DictKeys(d) == {d[0].0} + DictKeys(d[1..]);
    }
  }

  // ---------------------------------------------------------------------------
  // The loop over the collections. The loop reaches the first collection whose
  // executable is missing or whose launch raises an uncaught exception (or the end);
  // everything it leaves behind is a function
  // of the collections it reached.

  /** How many collections the loop gets through before one ends it (a missing
      executable or an uncaught exception), or all of them. */
  function FirstFatal(atts: seq<Attempt>): (r: nat)
    ensures r <= |atts|
    ensures forall i :: 0 <= i < r ==> !Fatal(atts[i])
    ensures r < |atts| ==> Fatal(atts[r])
  {
    if atts == [] then 0
    else if Fatal(atts[0]) then 0
    else 1 + FirstFatal(atts[1..])
  }

  /** The number of collections the loop attempts: up to and including the first one that
      ends it. */
  function Attempted(atts: seq<Attempt>): (n: nat)
    ensures n <= |atts|
  {
    var f := FirstFatal(atts);
    if f < |atts| then f + 1 else f
  }

  /** The exception that leaves the loop, if the attempt that ends it raised one. */
  function Escape(atts: seq<Attempt>): Option<PyError>
  {
    var f := FirstFatal(atts);
    if f < |atts| && atts[f].outcome.Raised? then Some(atts[f].outcome.error) else None
  }

  /** An exception leaves the loop exactly when some launch raised and every attempt
      before it let the loop go on; it is the exception of that launch. */
  lemma EscapeCharacterized(atts: seq<Attempt>, i: nat)
    requires i < |atts| && forall j :: 0 <= j < i ==> !Fatal(atts[j])
    ensures atts[i].outcome.Raised? ==> Escape(atts) == Some(atts[i].outcome.error)
    ensures Escape(atts).None? ==> !atts[i].outcome.Raised?
    ensures Escape(atts).Some? ==>
      exists k :: 0 <= k < |atts| && (forall j :: 0 <= j < k ==> !Fatal(atts[j]))
                  && atts[k].outcome.Raised? && Escape(atts) == Some(atts[k].outcome.error)
  {
    if atts[i].outcome.Raised? {
      FirstFatalUnique(atts, i);
    }
  }

  /** The stopping point is pinned down by "no fatal attempt before it, and a fatal one
      there or nothing left". */
  lemma FirstFatalUnique(atts: seq<Attempt>, k: nat)
    requires k <= |atts|
    requires forall i :: 0 <= i < k ==> !Fatal(atts[i])
    requires k < |atts| ==> Fatal(atts[k])
    ensures FirstFatal(atts) == k
  {
  }

  /** `success_count` after the given attempts. */
  function CountSucceeded(atts: seq<Attempt>): nat
  {
    if atts == [] then 0 else CountSucceeded(atts[..|atts| - 1]) + (if Succeeded(atts[|atts| - 1]) then 1 else 0)
  }

  /** The error block a failed attempt adds. */
  function FailureBlock(ctx: RunContext, collection: string, a: Attempt): ErrorBlock
    requires Failed(a)
  {
    if a.outcome.ExecutableNotFound? then ToolMissing(a.errorTime, a.freeBytes)
    else
      var code := a.outcome.code;
      DumpFailed(a.errorTime, collection, JoinWith(" ", DumpCommand(ctx, collection)), code,
                 Basename(ErrorFilePath(ctx, collection)), a.freeBytes, Classify(code))
  }

  /** `error_details` after the given attempts: one block per failed attempt, in order. */
  function FailureBlocks(ctx: RunContext, cols: seq<string>, atts: seq<Attempt>): seq<ErrorBlock>
    requires |cols| == |atts|
  {
    if cols == [] then []
    else
      var n := |cols| - 1;
      FailureBlocks(ctx, cols[..n], atts[..n])
        + (if Failed(atts[n]) then [FailureBlock(ctx, cols[n], atts[n])] else [])
  }

  /** The share of one collection in `collection_sizes`: the artifact's size if the dump
      succeeded and the file is there. */
  function SizeEntry(ctx: RunContext, collection: string, a: Attempt): Option<nat>
  {
    var artifact := ArtifactPath(ctx, collection);
    if Succeeded(a) && artifact in a.files then Some(a.files[artifact]) else None
  }

  /** `collection_sizes` after the given attempts. */
  function SizesAfter(ctx: RunContext, cols: seq<string>, atts: seq<Attempt>): seq<(string, nat)>
    requires |cols| == |atts|
  {
    if cols == [] then []
    else
      var n := |cols| - 1;
      var before := SizesAfter(ctx, cols[..n], atts[..n]);
      var entry := SizeEntry(ctx, cols[n], atts[n]);
      if entry.Some? then DictSet(before, cols[n], entry.value) else before
  }

  /** The effects of dumping one collection. */
  function AttemptEvents(ctx: RunContext, collection: string, a: Attempt): seq<Event>
  {
    var run := RunTool(DumpCommand(ctx, collection));
    match a.outcome
    case Raised(_) => [run]
    case ExecutableNotFound => [run, Notify(ErrorNotice(FailureBlock(ctx, collection, a)), None)]
    case Exited(code, stderr) =>
      if code == 0 then [run]
      else
        var path := ErrorFilePath(ctx, collection);
        [run, WriteFile(path, stderr), Notify(ErrorNotice(FailureBlock(ctx, collection, a)), Some(path))]
  }

  /** The effects of the loop over the given attempts. */
  function LoopEvents(ctx: RunContext, cols: seq<string>, atts: seq<Attempt>): seq<Event>
    requires |cols| == |atts|
  {
    if cols == [] then []
    else
      var n := |cols| - 1;
      LoopEvents(ctx, cols[..n], atts[..n]) + AttemptEvents(ctx, cols[n], atts[n])
  }

  /** Looking at one more collection extends each piece of loop state by that collection's share. */
  lemma PrefixStep(ctx: RunContext, cols: seq<string>, atts: seq<Attempt>, i: nat)
    requires |cols| == |atts| && i < |cols|
    ensures CountSucceeded(atts[..i + 1]) == CountSucceeded(atts[..i]) + (if Succeeded(atts[i]) then 1 else 0)
    ensures FailureBlocks(ctx, cols[..i + 1], atts[..i + 1])
         == FailureBlocks(ctx, cols[..i], atts[..i])
            + (if Failed(atts[i]) then [FailureBlock(ctx, cols[i], atts[i])] else [])
    ensures SizesAfter(ctx, cols[..i + 1], atts[..i + 1])
         == (var entry := SizeEntry(ctx, cols[i], atts[i]);
             if entry.Some? then DictSet(SizesAfter(ctx, cols[..i], atts[..i]), cols[i], entry.value)
             else SizesAfter(ctx, cols[..i], atts[..i]))
    ensures LoopEvents(ctx, cols[..i + 1], atts[..i + 1])
         == LoopEvents(ctx, cols[..i], atts[..i]) + AttemptEvents(ctx, cols[i], atts[i])
  {
    assert cols[..i + 1][..i] == cols[..i] && cols[..i + 1][i] == cols[i];
    assert atts[..i + 1][..i] == atts[..i] && atts[..i + 1][i] == atts[i];
  }

  // ---------------------------------------------------------------------------
  // Independent descriptions of what the loop leaves behind.

  /** The dump commands for the given collections, in order. */
  function Commands(ctx: RunContext, cols: seq<string>): (r: seq<seq<string>>)
    ensures |r| == |cols|
    ensures forall i :: 0 <= i < |cols| ==> r[i] == DumpCommand(ctx, cols[i])
  {
    if cols == [] then [] else Commands(ctx, cols[..|cols| - 1]) + [DumpCommand(ctx, cols[|cols| - 1])]
  }

  /** The argument vectors of the launch attempts, in order. */
  function ToolRuns(events: seq<Event>): seq<seq<string>>
  {
    if events == [] then []
    else ToolRuns(events[..|events| - 1]) + (if events[|events| - 1].RunTool? then [events[|events| - 1].argv] else [])
  }

  /** The messages sent, in order. */
  function Notices(events: seq<Event>): seq<Message>
  {
    if events == [] then []
    else Notices(events[..|events| - 1]) + (if events[|events| - 1].Notify? then [events[|events| - 1].message] else [])
  }

  function ErrorNotices(errors: seq<ErrorBlock>): (r: seq<Message>)
    ensures |r| == |errors|
    ensures forall i :: 0 <= i < |errors| ==> r[i] == ErrorNotice(errors[i])
  {
    if errors == [] then [] else ErrorNotices(errors[..|errors| - 1]) + [ErrorNotice(errors[|errors| - 1])]
  }

  /** The size recorded for key `k`: that of the artifact of the last successful dump of `k`
      whose artifact was on disk, if there was one. */
  function RecordedSize(ctx: RunContext, cols: seq<string>, atts: seq<Attempt>, k: string): Option<nat>
    requires |cols| == |atts|
  {
    if cols == [] then None
    else
      var n := |cols| - 1;
      var artifact := ArtifactPath(ctx, cols[n]);
      if cols[n] == k && Succeeded(atts[n]) && artifact in atts[n].files then Some(atts[n].files[artifact])
      else RecordedSize(ctx, cols[..n], atts[..n], k)
  }

  lemma {:induction false} ToolRunsAppend(a: seq<Event>, b: seq<Event>)
    ensures ToolRuns(a + b) == ToolRuns(a) + ToolRuns(b)
    decreases |b|
  {
    if b == [] {
      assert a + b == a;
    } else {
      assert (a + b)[..|a + b| - 1] == a + b[..|b| - 1];
      ToolRunsAppend(a, b[..|b| - 1]);
    }
  }

  lemma {:induction false} NoticesAppend(a: seq<Event>, b: seq<Event>)
    ensures Notices(a + b) == Notices(a) + Notices(b)
    decreases |b|
  {
    if b == [] {
      assert a + b == a;
    } else {
      assert (a + b)[..|a + b| - 1] == a + b[..|b| - 1];
      NoticesAppend(a, b[..|b| - 1]);
    }
  }

  lemma SingleEvent(e: Event)
    ensures ToolRuns([e]) == if e.RunTool? then [e.argv] else []
    ensures Notices([e]) == if e.Notify? then [e.message] else []
  {
    assert [e][..0] == [];
  }

  lemma TwoEvents(x: Event, y: Event)
    ensures ToolRuns([x, y]) == ToolRuns([x]) + ToolRuns([y])
    ensures Notices([x, y]) == Notices([x]) + Notices([y])
  {
    assert [x, y] == [x] + [y];
    ToolRunsAppend([x], [y]);
    NoticesAppend([x], [y]);
  }

  lemma ThreeEvents(x: Event, y: Event, z: Event)
    ensures ToolRuns([x, y, z]) == ToolRuns([x]) + ToolRuns([y]) + ToolRuns([z])
    ensures Notices([x, y, z]) == Notices([x]) + Notices([y]) + Notices([z])
  {
    assert [x, y, z] == [x, y] + [z];
    ToolRunsAppend([x, y], [z]);
    NoticesAppend([x, y], [z]);
    TwoEvents(x, y);
  }

  lemma RunNoticeShape(run: Event, notice: Event)
    requires run.RunTool? && notice.Notify?
    ensures ToolRuns([run, notice]) == [run.argv]
    ensures Notices([run, notice]) == [notice.message]
  {
    TwoEvents(run, notice);
    SingleEvent(run);
    SingleEvent(notice);
  }

  lemma RunWriteNoticeShape(run: Event, write: Event, notice: Event)
    requires run.RunTool? && write.WriteFile? && notice.Notify?
    ensures ToolRuns([run, write, notice]) == [run.argv]
    ensures Notices([run, write, notice]) == [notice.message]
  {
    ThreeEvents(run, write, notice);
    SingleEvent(run);
    SingleEvent(write);
    SingleEvent(notice);
  }

  /** Dumping one collection launches exactly its dump command and sends one notice
      exactly when it fails. A failed dump first writes the captured standard error to
      the collection's error file and then sends the report with that file attached; a
      missing executable is reported without attachment; a success or an uncaught
      exception adds nothing after the launch. */
  lemma AttemptEventsShape(ctx: RunContext, collection: string, a: Attempt)
    ensures ToolRuns(AttemptEvents(ctx, collection, a)) == [DumpCommand(ctx, collection)]
    ensures Notices(AttemptEvents(ctx, collection, a))
         == if Failed(a) then [ErrorNotice(FailureBlock(ctx, collection, a))] else []
    ensures var run := RunTool(DumpCommand(ctx, collection));
      var path := ErrorFilePath(ctx, collection);
      && (Succeeded(a) || a.outcome.Raised? ==> AttemptEvents(ctx, collection, a) == [run])
      && (a.outcome.ExecutableNotFound? ==>
            AttemptEvents(ctx, collection, a) == [run, Notify(ErrorNotice(ToolMissing(a.errorTime, a.freeBytes)), None)])
      && (a.outcome.Exited? && a.outcome.code != 0 ==>
            AttemptEvents(ctx, collection, a)
              == [run, WriteFile(path, a.outcome.stderr), Notify(ErrorNotice(FailureBlock(ctx, collection, a)), Some(path))])
  {
    var run := RunTool(DumpCommand(ctx, collection));
    var events := AttemptEvents(ctx, collection, a);
    match a.outcome
    case Raised(_) =>
      assert events == [run];
      SingleEvent(run);
    case ExecutableNotFound =>
      var notice := Notify(ErrorNotice(FailureBlock(ctx, collection, a)), None);
      assert events == [run, notice];
      RunNoticeShape(run, notice);
    case Exited(code, stderr) =>
      if code == 0 {
        assert events == [run];
        SingleEvent(run);
      } else {
        var path := ErrorFilePath(ctx, collection);
        var write := WriteFile(path, stderr);
        var notice := Notify(ErrorNotice(FailureBlock(ctx, collection, a)), Some(path));
        assert events == [run, write, notice];
        RunWriteNoticeShape(run, write, notice);
      }
  }

  /** Every caught attempt is either a success or leaves exactly one error block; an
      attempt that raised leaves neither. */
  lemma {:induction false} SuccessesPlusFailures(ctx: RunContext, cols: seq<string>, atts: seq<Attempt>)
    requires |cols| == |atts|
    ensures CountSucceeded(atts) + |FailureBlocks(ctx, cols, atts)| <= |atts|
    ensures (forall i :: 0 <= i < |atts| ==> !atts[i].outcome.Raised?) ==>
      CountSucceeded(atts) + |FailureBlocks(ctx, cols, atts)| == |atts|
    ensures FailureBlocks(ctx, cols, atts) == [] <==> forall i :: 0 <= i < |atts| ==> !Failed(atts[i])
  {
    if cols != [] {
      var n := |cols| - 1;
      SuccessesPlusFailures(ctx, cols[..n], atts[..n]);
      assert forall i :: 0 <= i < n ==> atts[..n][i] == atts[i];
    }
  }

  /** The loop's effects: one dump command per attempted collection, in configured
      order, and one notice per error block, in the order the blocks were recorded. */
  lemma {:induction false} LoopEffects(ctx: RunContext, cols: seq<string>, atts: seq<Attempt>)
    requires |cols| == |atts|
    ensures ToolRuns(LoopEvents(ctx, cols, atts)) == Commands(ctx, cols)
    ensures Notices(LoopEvents(ctx, cols, atts)) == ErrorNotices(FailureBlocks(ctx, cols, atts))
  {
    if cols != [] {
      var n := |cols| - 1;
      LoopEffects(ctx, cols[..n], atts[..n]);
      var before := LoopEvents(ctx, cols[..n], atts[..n]);
      ToolRunsAppend(before, AttemptEvents(ctx, cols[n], atts[n]));
      NoticesAppend(before, AttemptEvents(ctx, cols[n], atts[n]));
      AttemptEventsShape(ctx, cols[n], atts[n]);
      var blocks := FailureBlocks(ctx, cols[..n], atts[..n]);
      if Failed(atts[n]) {
        var all := blocks + [FailureBlock(ctx, cols[n], atts[n])];
        assert all[..|all| - 1] == blocks;
      } else {
        assert blocks + [] == blocks;
      }
    }
  }

  /** `collection_sizes` has unique keys, and holds for a collection exactly the size of
      the artifact of its last successful dump whose artifact was found; a missing
      artifact records nothing. */
  lemma {:induction false} LoopSizes(ctx: RunContext, cols: seq<string>, atts: seq<Attempt>, k: string)
    requires |cols| == |atts|
    ensures UniqueKeys(SizesAfter(ctx, cols, atts))
    ensures DictGet(SizesAfter(ctx, cols, atts), k) == RecordedSize(ctx, cols, atts, k)
  {
    if cols != [] {
      var n := |cols| - 1;
      LoopSizes(ctx, cols[..n], atts[..n], k);
    }
  }

  // ---------------------------------------------------------------------------
  // The whole run.

  /** The attempted prefix of the configured collections and of their attempts. */
  function AttemptedCollections(config: Config, env: RunEnv): seq<string>
    requires EnvFits(config, env)
  {
    config.collections[..Attempted(env.attempts)]
  }

  function AttemptedAttempts(env: RunEnv): seq<Attempt>
  {
    env.attempts[..Attempted(env.attempts)]
  }

  /** The end of a run (after the loop): a failure summary if any error block was
      recorded, otherwise the folder size, the version probe and a success summary. */
  function Finish(config: Config, backupType: string, out: string, env: RunEnv,
                  successCount: nat, errors: seq<ErrorBlock>, sizes: seq<(string, nat)>): RunResult
  {
    if |errors| > 0 then
      RunResult([Notify(FailureSummary(successCount, |config.collections|, out, errors), None)], None)
    else
      var probe := [RunTool(VersionCommand)];
      match env.version
      case VersionRaised(e) => RunResult(probe, Some(e))
      case VersionExited(code, lines) =>
        if code == 0 && lines == [] then RunResult(probe, Some(PyError("IndexError", "list index out of range")))
        else
          var version := if code == 0 then lines[0] else "No disponible";
          var summary := SuccessSummary(backupType, successCount, FolderSizeText(env.outputTree),
                                        env.startTime, env.endTime, version,
                                        env.freeBeforeBytes, env.freeAfterBytes, sizes, out);
          RunResult(probe + [Notify(summary, None)], None)
  }

  /** What follows the loop: nothing when an exception left it, otherwise the final report. */
  function RunEnd(config: Config, backupType: string, out: string, env: RunEnv,
                  successCount: nat, errors: seq<ErrorBlock>, sizes: seq<(string, nat)>): RunResult
  {
    var escape := Escape(env.attempts);
    if escape.Some? then RunResult([], escape)
    else Finish(config, backupType, out, env, successCount, errors, sizes)
  }

  function ExecuteSpec(config: Config, backupType: string, env: RunEnv): RunResult
    requires EnvFits(config, env)
  {
    var out := OutputPath(config, backupType, env.now);
    if env.makedirsError.Some? then RunResult([MakeDirs(out)], env.makedirsError)
    else
      var head := [MakeDirs(out), Notify(StartNotice(backupType, config.databaseName, out, config.collections), None)];
      var ctx := RunContext(config, out, FileStamp(env.now));
      var cols := AttemptedCollections(config, env);
      var atts := AttemptedAttempts(env);
      var fin := RunEnd(config, backupType, out, env, CountSucceeded(atts), FailureBlocks(ctx, cols, atts), SizesAfter(ctx, cols, atts));
      RunResult(head + LoopEvents(ctx, cols, atts) + fin.events, fin.raised)
  }

  /** One step of the loop: an attempt that ends it is the last one and decides whether
      an exception leaves the loop; any other keeps the next one reachable. */
  lemma FatalStep(atts: seq<Attempt>, i: nat)
    requires i <= FirstFatal(atts) && i < |atts|
    ensures Fatal(atts[i]) ==> Attempted(atts) == i + 1
    ensures Fatal(atts[i]) ==> Escape(atts) == if atts[i].outcome.Raised? then Some(atts[i].outcome.error) else None
    ensures !Fatal(atts[i]) ==> i + 1 <= FirstFatal(atts)
  {
  }

  /** The body of the loop for one collection: the `try` around `subprocess.run` and its
      two `except` clauses; an exception neither clause catches ends the loop with
      `raised`. */
  method DumpOne(ctx: RunContext, collection: string, attempt: Attempt,
                 successCount: nat, errorDetails: seq<ErrorBlock>, collectionSizes: seq<(string, nat)>, loopEvents: seq<Event>)
    returns (successCount': nat, errorDetails': seq<ErrorBlock>, collectionSizes': seq<(string, nat)>, loopEvents': seq<Event>,
             stop: bool, raised: Option<PyError>)
    ensures successCount' == successCount + (if Succeeded(attempt) then 1 else 0)
    ensures errorDetails' == errorDetails + (if Failed(attempt) then [FailureBlock(ctx, collection, attempt)] else [])
    ensures collectionSizes' ==
      (var entry := SizeEntry(ctx, collection, attempt);
       if entry.Some? then DictSet(collectionSizes, collection, entry.value) else collectionSizes)
    ensures loopEvents' == loopEvents + AttemptEvents(ctx, collection, attempt)
    ensures stop == Fatal(attempt)
    ensures raised == if attempt.outcome.Raised? then Some(attempt.outcome.error) else None
  {
    var command := DumpCommand(ctx, collection);
    successCount', errorDetails', collectionSizes', stop, raised := successCount, errorDetails, collectionSizes, false, None;
    match attempt.outcome {
      case Exited(code, stderr) =>
        if code == 0 {
          successCount' := successCount + 1;
          var bsonFile := ArtifactPath(ctx, collection);
          if bsonFile in attempt.files {
            collectionSizes' := DictSet(collectionSizes, collection, attempt.files[bsonFile]);
          }
          loopEvents' := loopEvents + [RunTool(command)];
        } else {
          var errorFile := ErrorFilePath(ctx, collection);
          var errorMsg := DumpFailed(attempt.errorTime, collection, JoinWith(" ", command), code,
                                     Basename(errorFile), attempt.freeBytes, Classify(code));
          errorDetails' := errorDetails + [errorMsg];
          loopEvents' := loopEvents + [RunTool(command), WriteFile(errorFile, stderr), Notify(ErrorNotice(errorMsg), Some(errorFile))];
        }
      case ExecutableNotFound =>
        var errorMsg := ToolMissing(attempt.errorTime, attempt.freeBytes);
        errorDetails' := errorDetails + [errorMsg];
        loopEvents' := loopEvents + [RunTool(command), Notify(ErrorNotice(errorMsg), None)];
        stop := true;
      case Raised(e) =>
        loopEvents' := loopEvents + [RunTool(command)];
        stop, raised := true, Some(e);
    }
  }

  /** The loop's variables after the first `i` collections. */
  predicate LoopStateAt(ctx: RunContext, cols: seq<string>, atts: seq<Attempt>, i: nat,
                        successCount: nat, errorDetails: seq<ErrorBlock>, collectionSizes: seq<(string, nat)>, loopEvents: seq<Event>)
    requires i <= |cols| == |atts|
  {
    && successCount == CountSucceeded(atts[..i])
    && errorDetails == FailureBlocks(ctx, cols[..i], atts[..i])
    && collectionSizes == SizesAfter(ctx, cols[..i], atts[..i])
    && loopEvents == LoopEvents(ctx, cols[..i], atts[..i])
  }

  /** The `for collection in collections` loop of `execute_mongodump`, with its `break`
      and the exception that may leave it. */
  method DumpCollections(ctx: RunContext, collections: seq<string>, attempts: seq<Attempt>)
    returns (successCount: nat, errorDetails: seq<ErrorBlock>, collectionSizes: seq<(string, nat)>, loopEvents: seq<Event>,
             raised: Option<PyError>)
    requires |attempts| == |collections|
    ensures var n := Attempted(attempts);
      && successCount == CountSucceeded(attempts[..n])
      && errorDetails == FailureBlocks(ctx, collections[..n], attempts[..n])
      && collectionSizes == SizesAfter(ctx, collections[..n], attempts[..n])
      && loopEvents == LoopEvents(ctx, collections[..n], attempts[..n])
      && raised == Escape(attempts)
  {
    successCount, errorDetails, collectionSizes, loopEvents, raised := 0, [], [], [], None;
    var i := 0;
    while i < |collections|
      invariant 0 <= i <= FirstFatal(attempts)
      invariant LoopStateAt(ctx, collections, attempts, i, successCount, errorDetails, collectionSizes, loopEvents)
    {
      PrefixStep(ctx, collections, attempts, i);
      FatalStep(attempts, i);
      var stop, escaped;
      successCount, errorDetails, collectionSizes, loopEvents, stop, escaped :=
        DumpOne(ctx, collections[i], attempts[i], successCount, errorDetails, collectionSizes, loopEvents);
      if stop {
        return successCount, errorDetails, collectionSizes, loopEvents, escaped;
      }
      i := i + 1;
    }
    assert Attempted(attempts) == i;
    assert collections[..i] == collections && attempts[..i] == attempts;
  }

  /** The final notification of `execute_mongodump`. */
  method FinalReport(config: Config, backupType: string, outputPath: string, env: RunEnv,
                     successCount: nat, errorDetails: seq<ErrorBlock>, collectionSizes: seq<(string, nat)>)
    returns (result: RunResult)
    ensures result == Finish(config, backupType, outputPath, env, successCount, errorDetails, collectionSizes)
  {
    if |errorDetails| > 0 {
      var finalMessage := FailureSummary(successCount, |config.collections|, outputPath, errorDetails);
      return RunResult([Notify(finalMessage, None)], None);
    }
    var totalSize := GetFolderSize(env.outputTree);
    var events := [RunTool(VersionCommand)];
    var version: string;
    match env.version {
      case VersionRaised(e) =>
        return RunResult(events, Some(e));
      case VersionExited(code, lines) =>
        if code == 0 {
          if lines == [] {
            return RunResult(events, Some(PyError("IndexError", "list index out of range")));
          }
          version := lines[0];
        } else {
          version := "No disponible";
        }
    }
    var finalMessage := SuccessSummary(backupType, successCount, totalSize, env.startTime, env.endTime, version,
                                       env.freeBeforeBytes, env.freeAfterBytes, collectionSizes, outputPath);
    result := RunResult(events + [Notify(finalMessage, None)], None);
  }

  method ExecuteMongodump(config: Config, backupType: string, env: RunEnv) returns (result: RunResult)
    requires EnvFits(config, env)
    ensures result == ExecuteSpec(config, backupType, env)
  {
    var outputPath := OutputPath(config, backupType, env.now);
    if env.makedirsError.Some? {
      return RunResult([MakeDirs(outputPath)], env.makedirsError);
    }
    var head := [MakeDirs(outputPath), Notify(StartNotice(backupType, config.databaseName, outputPath, config.collections), None)];
    var ctx := RunContext(config, outputPath, FileStamp(env.now));
    var successCount, errorDetails, collectionSizes, loopEvents, raised := DumpCollections(ctx, config.collections, env.attempts);
    if raised.Some? {
      assert head + loopEvents + [] == head + loopEvents;
      return RunResult(head + loopEvents, raised);
    }
    var fin := FinalReport(config, backupType, outputPath, env, successCount, errorDetails, collectionSizes);
    result := RunResult(head + loopEvents + fin.events, fin.raised);
  }

  // ---------------------------------------------------------------------------
  // What a run promises.

  function RunCtx(config: Config, backupType: string, env: RunEnv): RunContext
    requires EnvFits(config, env)
  {
    RunContext(config, OutputPath(config, backupType, env.now), FileStamp(env.now))
  }

  /** `error_details` at the end of the loop. */
  function RunErrors(config: Config, backupType: string, env: RunEnv): seq<ErrorBlock>
    requires EnvFits(config, env)
  {
    FailureBlocks(RunCtx(config, backupType, env), AttemptedCollections(config, env), AttemptedAttempts(env))
  }

  /** A folder name is one path component: the prefix of its kind, then the date fields
      at fixed places. */
  lemma FolderNameFields(k: string, t: DateTime)
    requires ValidDateTime(t)
    ensures var n := FolderName(k, t);
      && '/' !in n
      && n[..15] == (if k == "monthly" then "backup_mensual_" else "backup_semanal_")
      && |n| == (if k == "monthly" then 22 else 25)
      && n[15..19] == PadDigits(t.date.year, 4)
      && n[20..22] == PadDigits(t.date.month, 2)
      && (k != "monthly" ==> n[23..25] == PadDigits(t.date.day, 2))
  {
    var y, m, d := PadDigits(t.date.year, 4), PadDigits(t.date.month, 2), PadDigits(t.date.day, 2);
    PadDigitsNoSlash(t.date.year, 4);
    PadDigitsNoSlash(t.date.month, 2);
    PadDigitsNoSlash(t.date.day, 2);
    if k == "monthly" {
      NameSlices("backup_mensual_", y, m, []);
      assert FolderName(k, t) == "backup_mensual_" + y + "-" + m + [];
    } else {
      NameSlices("backup_semanal_", y, m, "-" + d);
      assert FolderName(k, t) == "backup_semanal_" + y + "-" + m + ("-" + d);
    }
  }

  lemma NameSlices(prefix: string, y: string, m: string, rest: string)
    requires |prefix| == 15 && |y| == 4 && |m| == 2
    requires '/' !in prefix && '/' !in y && '/' !in m && '/' !in rest
    ensures var n := prefix + y + "-" + m + rest;
      && '/' !in n && |n| == 22 + |rest|
      && n[..15] == prefix && n[15..19] == y && n[20..22] == m && n[22..] == rest
  {
    var n := prefix + y + "-" + m + rest;
    assert n[..15] == prefix && n[15..19] == y && n[20..22] == m && n[22..] == rest;
  }

  /** The run's folder sits directly in the configured backup directory. */
  lemma OutputPathFolder(config: Config, backupType: string, now: DateTime)
    requires ValidDateTime(now)
    ensures Basename(OutputPath(config, backupType, now)) == FolderName(backupType, now)
  {
    FolderNameFields(backupType, now);
    BasenameOfJoin(config.localBackupPath, FolderName(backupType, now));
  }

  /** The stamp of error file names is a plain file-name part from which the six fields
      of the date and time read back. */
  lemma FileStampFields(now: DateTime)
    requires ValidDateTime(now)
    ensures var s := FileStamp(now);
      && '/' !in s
      && |s| == 15 && s[8] == '_'
      && ParseDigits(s[..4]) == now.date.year && ParseDigits(s[4..6]) == now.date.month
      && ParseDigits(s[6..8]) == now.date.day
      && ParseDigits(s[9..11]) == now.hour && ParseDigits(s[11..13]) == now.minute
      && ParseDigits(s[13..15]) == now.second
  {
    var d := now.date;
    var y, mo, da := PadDigits(d.year, 4), PadDigits(d.month, 2), PadDigits(d.day, 2);
    var h, mi, se := PadDigits(now.hour, 2), PadDigits(now.minute, 2), PadDigits(now.second, 2);
    PadDigitsNoSlash(d.year, 4);
    PadDigitsNoSlash(d.month, 2);
    PadDigitsNoSlash(d.day, 2);
    PadDigitsNoSlash(now.hour, 2);
    PadDigitsNoSlash(now.minute, 2);
    PadDigitsNoSlash(now.second, 2);
    StampSlices(y, mo, da, h, mi, se);
    ParsePadDigits(d.year, 4);
    ParsePadDigits(d.month, 2);
    ParsePadDigits(d.day, 2);
    ParsePadDigits(now.hour, 2);
    ParsePadDigits(now.minute, 2);
    ParsePadDigits(now.second, 2);
  }

  lemma StampSlices(y: string, mo: string, da: string, h: string, mi: string, se: string)
    requires |y| == 4 && |mo| == 2 && |da| == 2 && |h| == 2 && |mi| == 2 && |se| == 2
    requires '/' !in y && '/' !in mo && '/' !in da && '/' !in h && '/' !in mi && '/' !in se
    ensures var s := y + mo + da + "_" + h + mi + se;
      && '/' !in s && |s| == 15 && s[8] == '_'
      && s[..4] == y && s[4..6] == mo && s[6..8] == da
      && s[9..11] == h && s[11..13] == mi && s[13..15] == se
  {
    var s := y + mo + da + "_" + h + mi + se;
    assert s[..4] == y && s[4..6] == mo && s[6..8] == da;
    assert s[9..11] == h && s[11..13] == mi && s[13..15] == se;
  }

  /** Read as option pairs after the program name, the dump command hands `mongodump`
      the URI, the database, the collection and the output folder, and ends with
      `--gzip`. */
  lemma DumpCommandOptions(ctx: RunContext, collection: string)
    ensures var argv := DumpCommand(ctx, collection);
      && |argv| == 10 && argv[0] == "mongodump" && argv[9] == "--gzip"
      && OptionValue(argv[1..], "--uri") == Some(ctx.config.mongodbUri)
      && OptionValue(argv[1..], "--db") == Some(ctx.config.databaseName)
      && OptionValue(argv[1..], "--collection") == Some(collection)
      && OptionValue(argv[1..], "--out") == Some(ctx.outputPath)
  {
    var opts := DumpCommand(ctx, collection)[1..];
    assert opts[2..] == ["--db", ctx.config.databaseName, "--collection", collection, "--out", ctx.outputPath, "--gzip"];
    assert opts[2..][2..] == ["--collection", collection, "--out", ctx.outputPath, "--gzip"];
    assert opts[2..][2..][2..] == ["--out", ctx.outputPath, "--gzip"];
    assert OptionValue(opts[2..][2..][2..], "--out") == Some(ctx.outputPath);
    assert OptionValue(opts[2..][2..], "--out") == Some(ctx.outputPath);
    assert OptionValue(opts[2..][2..], "--collection") == Some(collection);
    assert OptionValue(opts[2..], "--out") == Some(ctx.outputPath);
    assert OptionValue(opts[2..], "--collection") == Some(collection);
  }

  /** A successful dump's file is `<collection>.bson.gz`, and a failed dump's error file
      is `error_<collection>_<stamp>.txt`, for a collection name without `/`. */
  lemma DumpFileNames(ctx: RunContext, collection: string)
    requires '/' !in collection && '/' !in ctx.fileStamp
    ensures Basename(ArtifactPath(ctx, collection)) == collection + ".bson.gz"
    ensures Basename(ErrorFilePath(ctx, collection)) == "error_" + collection + "_" + ctx.fileStamp + ".txt"
  {
    BasenameOfJoin(PathJoin(ctx.outputPath, ctx.config.databaseName), collection + ".bson.gz");
    BasenameOfJoin(ctx.outputPath, "error_" + collection + "_" + ctx.fileStamp + ".txt");
  }

  /** Folder names identify a run: monthly and weekly folders never coincide, a monthly
      folder is shared by exactly the runs of one month, a weekly one by those of one day,
      and every kind other than `'monthly'` is named as weekly. */
  lemma FolderNamesDistinct(k1: string, t1: DateTime, k2: string, t2: DateTime)
    requires ValidDateTime(t1) && ValidDateTime(t2)
    ensures FolderName(k1, t1) == FolderName(k2, t2) <==>
      && (k1 == "monthly" <==> k2 == "monthly")
      && t1.date.year == t2.date.year && t1.date.month == t2.date.month
      && (k1 != "monthly" ==> t1.date.day == t2.date.day)
  {
    FolderNameFields(k1, t1);
    FolderNameFields(k2, t2);
    PadDigitsInjective(t1.date.year, t2.date.year, 4);
    PadDigitsInjective(t1.date.month, t2.date.month, 2);
    PadDigitsInjective(t1.date.day, t2.date.day, 2);
  }

  /** The block for a failed dump names the collection, the command line joined by spaces,
      the exit code and its classification, and attaches the file
      `error_<collection>_<stamp>.txt` written in the output folder. */
  lemma DumpFailedBlock(config: Config, backupType: string, env: RunEnv, collection: string, a: Attempt)
    requires EnvFits(config, env) && '/' !in collection
    requires a.outcome.Exited? && a.outcome.code != 0
    ensures var ctx := RunCtx(config, backupType, env);
      var b := FailureBlock(ctx, collection, a);
      && b.DumpFailed?
      && b.collection == collection
      && b.command == JoinWith(" ", DumpCommand(ctx, collection))
      && b.returnCode == a.outcome.code
      && b.cause == Classify(a.outcome.code)
      && b.attachmentName == "error_" + collection + "_" + FileStamp(env.now) + ".txt"
      && ErrorFilePath(ctx, collection) == PathJoin(ctx.outputPath, b.attachmentName)
  {
    FileStampFields(env.now);
    DumpFileNames(RunCtx(config, backupType, env), collection);
  }

  /** Every run, even one whose folder cannot be created, starts by creating its folder. */
  lemma RunStartsWithFolder(config: Config, backupType: string, env: RunEnv)
    requires EnvFits(config, env)
    ensures var r := ExecuteSpec(config, backupType, env);
      r.events != [] && r.events[0] == MakeDirs(OutputPath(config, backupType, env.now))
  {
  }

  /** The trace of a run that created its folder: the creation and start notice, the
      loop's effects, and what follows the loop. */
  lemma RunEventsSplit(config: Config, backupType: string, env: RunEnv)
    requires EnvFits(config, env) && env.makedirsError.None?
    ensures var r := ExecuteSpec(config, backupType, env);
      var ctx := RunCtx(config, backupType, env);
      var cols, atts := AttemptedCollections(config, env), AttemptedAttempts(env);
      var fin := RunEnd(config, backupType, ctx.outputPath, env, CountSucceeded(atts), RunErrors(config, backupType, env), SizesAfter(ctx, cols, atts));
      && r.events == [MakeDirs(ctx.outputPath), Notify(StartNotice(backupType, config.databaseName, ctx.outputPath, config.collections), None)]
                     + LoopEvents(ctx, cols, atts) + fin.events
      && r.raised == fin.raised
  {
  }

  /** Creating a folder and sending a message launches nothing and contributes that one
      message, ahead of whatever follows. */
  lemma HeadEffects(path: string, m: Message, loop: seq<Event>, tail: seq<Event>)
    ensures var t := [MakeDirs(path), Notify(m, None)] + loop + tail;
      && t[0] == MakeDirs(path)
      && ToolRuns(t) == ToolRuns(loop) + ToolRuns(tail)
      && Notices(t) == [m] + Notices(loop) + Notices(tail)
  {
    var head := [MakeDirs(path), Notify(m, None)];
    HeadPair(path, m);
    ToolRunsAppend(head, loop);
    ToolRunsAppend(head + loop, tail);
    NoticesAppend(head, loop);
    NoticesAppend(head + loop, tail);
  }

  lemma HeadPair(path: string, m: Message)
    ensures ToolRuns([MakeDirs(path), Notify(m, None)]) == []
    ensures Notices([MakeDirs(path), Notify(m, None)]) == [m]
  {
    TwoEvents(MakeDirs(path), Notify(m, None));
    SingleEvent(MakeDirs(path));
    SingleEvent(Notify(m, None));
  }

  /** The three shapes of the final report: a failure summary; the version probe alone,
      when it raises; the probe then a success summary. */
  lemma FinishCases(config: Config, backupType: string, out: string, env: RunEnv,
                    successCount: nat, errors: seq<ErrorBlock>, sizes: seq<(string, nat)>)
    ensures var fin := Finish(config, backupType, out, env, successCount, errors, sizes);
      || (errors != [] && fin.raised.None? && ToolRuns(fin.events) == []
          && Notices(fin.events) == [FailureSummary(successCount, |config.collections|, out, errors)])
      || (errors == [] && fin.raised.Some? && ToolRuns(fin.events) == [VersionCommand] && Notices(fin.events) == [])
      || (errors == [] && fin.raised.None? && ToolRuns(fin.events) == [VersionCommand]
          && |Notices(fin.events)| == 1 && Notices(fin.events)[0].SuccessSummary?)
    ensures var fin := Finish(config, backupType, out, env, successCount, errors, sizes);
      errors == [] ==>
        && (fin.raised.Some? <==> env.version.VersionRaised? || env.version == VersionExited(0, []))
        && (env.version.VersionRaised? ==> fin.raised == Some(env.version.error))
        && (env.version == VersionExited(0, []) ==> fin.raised == Some(PyError("IndexError", "list index out of range")))
    ensures var fin := Finish(config, backupType, out, env, successCount, errors, sizes);
      errors == [] && fin.raised.None? ==>
        && env.version.VersionExited?
        && (env.version.code == 0 ==> env.version.stdoutLines != [])
        && fin.events == [RunTool(VersionCommand),
                          Notify(SuccessSummary(backupType, successCount, FolderSizeText(env.outputTree),
                                                env.startTime, env.endTime,
                                                if env.version.code == 0 then env.version.stdoutLines[0] else "No disponible",
                                                env.freeBeforeBytes, env.freeAfterBytes, sizes, out), None)]
  {
    var probe := RunTool(VersionCommand);
    if |errors| > 0 {
      SingleEvent(Notify(FailureSummary(successCount, |config.collections|, out, errors), None));
    } else {
      SingleEvent(probe);
      var fin := Finish(config, backupType, out, env, successCount, errors, sizes);
      if fin.raised.None? {
        var last := fin.events[1];
        assert fin.events == [probe, last];
        TwoEvents(probe, last);
        SingleEvent(last);
      }
    }
  }

  /** After the loop the version probe is launched exactly when no error was recorded and
      no exception left the loop, and one summary is sent unless the run raises; an
      exception left the loop, or there were no errors, whenever the run raises. */
  lemma EndEffects(config: Config, backupType: string, out: string, env: RunEnv,
                   successCount: nat, errors: seq<ErrorBlock>, sizes: seq<(string, nat)>)
    ensures var fin := RunEnd(config, backupType, out, env, successCount, errors, sizes);
      && ToolRuns(fin.events) == (if errors == [] && Escape(env.attempts).None? then [VersionCommand] else [])
      && |Notices(fin.events)| == (if fin.raised.Some? then 0 else 1)
      && (fin.raised.Some? ==> errors == [] || Escape(env.attempts).Some?)
      && (Escape(env.attempts).Some? ==> fin == RunResult([], Escape(env.attempts)))
  {
    if Escape(env.attempts).None? {
      FinishCases(config, backupType, out, env, successCount, errors, sizes);
    }
  }

  /** The order of effects: the folder is created first, the start notice is the first
      message, then one notice per error block in the order recorded, then the summary
      (none if the run raised). The processes launched are the dump commands of the
      attempted collections, in configured order, then the version probe when no error
      was recorded and no exception left the loop. */
  lemma RunEffectsInOrder(config: Config, backupType: string, env: RunEnv)
    requires EnvFits(config, env) && env.makedirsError.None?
    ensures var r := ExecuteSpec(config, backupType, env);
      var ctx := RunCtx(config, backupType, env);
      var errors := RunErrors(config, backupType, env);
      && r.events[0] == MakeDirs(ctx.outputPath)
      && |Notices(r.events)| == 1 + |errors| + (if r.raised.Some? then 0 else 1)
      && Notices(r.events)[0] == StartNotice(backupType, config.databaseName, ctx.outputPath, config.collections)
      && Notices(r.events)[1..1 + |errors|] == ErrorNotices(errors)
      && ToolRuns(r.events) == Commands(ctx, AttemptedCollections(config, env))
                               + (if errors == [] && Escape(env.attempts).None? then [VersionCommand] else [])
  {
    var ctx := RunCtx(config, backupType, env);
    var cols, atts := AttemptedCollections(config, env), AttemptedAttempts(env);
    var errors := RunErrors(config, backupType, env);
    var fin := RunEnd(config, backupType, ctx.outputPath, env, CountSucceeded(atts), errors, SizesAfter(ctx, cols, atts));
    var start := StartNotice(backupType, config.databaseName, ctx.outputPath, config.collections);
    RunEventsSplit(config, backupType, env);
    HeadEffects(ctx.outputPath, start, LoopEvents(ctx, cols, atts), fin.events);
    LoopEffects(ctx, cols, atts);
    EndEffects(config, backupType, ctx.outputPath, env, CountSucceeded(atts), errors, SizesAfter(ctx, cols, atts));
    var errs := ErrorNotices(errors);
    assert ([start] + errs + Notices(fin.events))[1..1 + |errs|] == errs;
  }

  /** The only message sent after the loop is a summary. */
  lemma EndSendsSummary(config: Config, backupType: string, out: string, env: RunEnv,
                        successCount: nat, errors: seq<ErrorBlock>, sizes: seq<(string, nat)>)
    ensures var fin := RunEnd(config, backupType, out, env, successCount, errors, sizes);
      forall m :: m in Notices(fin.events) ==> m.FailureSummary? || m.SuccessSummary?
  {
    if Escape(env.attempts).None? {
      FinishCases(config, backupType, out, env, successCount, errors, sizes);
    }
  }

  lemma NoCriticalAmong(start: Message, errors: seq<ErrorBlock>, rest: seq<Message>)
    requires start.StartNotice?
    requires forall m :: m in rest ==> m.FailureSummary? || m.SuccessSummary?
    ensures forall m :: m in [start] + ErrorNotices(errors) + rest ==> !m.CriticalError?
  {
    var errs := ErrorNotices(errors);
    forall m | m in errs
      ensures !m.CriticalError?
    {
      var i :| 0 <= i < |errs| && errs[i] == m;
    }
  }

  /** A run never sends a critical-error message itself: those come only from the
      caller's handler. */
  lemma RunSendsNoCritical(config: Config, backupType: string, env: RunEnv)
    requires EnvFits(config, env)
    ensures forall m :: m in Notices(ExecuteSpec(config, backupType, env).events) ==> !m.CriticalError?
  {
    var ctx := RunCtx(config, backupType, env);
    if env.makedirsError.Some? {
      SingleEvent(MakeDirs(ctx.outputPath));
    } else {
      var cols, atts := AttemptedCollections(config, env), AttemptedAttempts(env);
      var errors := RunErrors(config, backupType, env);
      var fin := RunEnd(config, backupType, ctx.outputPath, env, CountSucceeded(atts), errors, SizesAfter(ctx, cols, atts));
      var start := StartNotice(backupType, config.databaseName, ctx.outputPath, config.collections);
      RunEventsSplit(config, backupType, env);
      HeadEffects(ctx.outputPath, start, LoopEvents(ctx, cols, atts), fin.events);
      LoopEffects(ctx, cols, atts);
      EndSendsSummary(config, backupType, ctx.outputPath, env, CountSucceeded(atts), errors, SizesAfter(ctx, cols, atts));
      NoCriticalAmong(start, errors, Notices(fin.events));
    }
  }

  // ---------------------------------------------------------------------------
  // Attachments.

  /** A message goes out with a file attached exactly when it reports a failed dump; the
      file is that collection's error file, and the event just before wrote it. */
  predicate AttachmentsSound(ctx: RunContext, events: seq<Event>)
  {
    forall j :: 0 <= j < |events| ==> AttachmentSoundAt(ctx, events, j)
  }

  predicate AttachmentSoundAt(ctx: RunContext, events: seq<Event>, j: nat)
    requires j < |events|
  {
    var e := events[j];
    e.Notify? ==>
      && (e.attachment.Some? <==> e.message.ErrorNotice? && e.message.block.DumpFailed?)
      && (e.attachment.Some? ==>
            && e.attachment.value == ErrorFilePath(ctx, e.message.block.collection)
            && 0 < j && events[j - 1].WriteFile? && events[j - 1].path == e.attachment.value)
  }

  lemma AttachmentsAppend(ctx: RunContext, a: seq<Event>, b: seq<Event>)
    requires AttachmentsSound(ctx, a) && AttachmentsSound(ctx, b)
    ensures AttachmentsSound(ctx, a + b)
  {
    var t := a + b;
    forall j | 0 <= j < |t|
      ensures AttachmentSoundAt(ctx, t, j)
    {
      if j < |a| {
        assert AttachmentSoundAt(ctx, a, j);
        assert t[j] == a[j];
        if 0 < j {
          assert t[j - 1] == a[j - 1];
        }
      } else {
        var k := j - |a|;
        assert AttachmentSoundAt(ctx, b, k);
        assert t[j] == b[k];
        if 0 < k {
          assert t[j - 1] == b[k - 1];
        }
      }
    }
  }

  lemma AttemptAttachments(ctx: RunContext, collection: string, a: Attempt)
    ensures AttachmentsSound(ctx, AttemptEvents(ctx, collection, a))
  {
    AttemptEventsShape(ctx, collection, a);
  }

  lemma {:induction false} LoopAttachments(ctx: RunContext, cols: seq<string>, atts: seq<Attempt>)
    requires |cols| == |atts|
    ensures AttachmentsSound(ctx, LoopEvents(ctx, cols, atts))
  {
    if cols != [] {
      var n := |cols| - 1;
      LoopAttachments(ctx, cols[..n], atts[..n]);
      AttemptAttachments(ctx, cols[n], atts[n]);
      AttachmentsAppend(ctx, LoopEvents(ctx, cols[..n], atts[..n]), AttemptEvents(ctx, cols[n], atts[n]));
    }
  }

  /** Over a whole run, a message has an attachment exactly when it reports a failed dump,
      and the attachment is the error file of that collection, written just before. */
  lemma RunAttachments(config: Config, backupType: string, env: RunEnv)
    requires EnvFits(config, env)
    ensures AttachmentsSound(RunCtx(config, backupType, env), ExecuteSpec(config, backupType, env).events)
  {
    var ctx := RunCtx(config, backupType, env);
    if env.makedirsError.None? {
      var cols, atts := AttemptedCollections(config, env), AttemptedAttempts(env);
      var errors := RunErrors(config, backupType, env);
      var fin := RunEnd(config, backupType, ctx.outputPath, env, CountSucceeded(atts), errors, SizesAfter(ctx, cols, atts));
      var start := StartNotice(backupType, config.databaseName, ctx.outputPath, config.collections);
      RunEventsSplit(config, backupType, env);
      LoopAttachments(ctx, cols, atts);
      EndAttachments(ctx, config, backupType, env, CountSucceeded(atts), errors, SizesAfter(ctx, cols, atts));
      ThreePartAttachments(ctx, start, LoopEvents(ctx, cols, atts), fin.events);
    }
  }

  lemma ThreePartAttachments(ctx: RunContext, start: Message, loop: seq<Event>, tail: seq<Event>)
    requires !start.ErrorNotice?
    requires AttachmentsSound(ctx, loop) && AttachmentsSound(ctx, tail)
    ensures AttachmentsSound(ctx, [MakeDirs(ctx.outputPath), Notify(start, None)] + loop + tail)
  {
    var head := [MakeDirs(ctx.outputPath), Notify(start, None)];
    assert AttachmentSoundAt(ctx, head, 0) && AttachmentSoundAt(ctx, head, 1);
    AttachmentsAppend(ctx, head, loop);
    AttachmentsAppend(ctx, head + loop, tail);
  }

  /** No message after the loop has an attachment. */
  lemma EndAttachments(ctx: RunContext, config: Config, backupType: string, env: RunEnv,
                       successCount: nat, errors: seq<ErrorBlock>, sizes: seq<(string, nat)>)
    ensures AttachmentsSound(ctx, RunEnd(config, backupType, ctx.outputPath, env, successCount, errors, sizes).events)
  {
    var t := RunEnd(config, backupType, ctx.outputPath, env, successCount, errors, sizes).events;
    assert forall j :: 0 <= j < |t| && t[j].Notify? ==> t[j].attachment.None? && !t[j].message.ErrorNotice?;
  }

  // ---------------------------------------------------------------------------
  // Tallies and the summary.

  /** The tallies a run reports: every attempted collection is a success, an error block,
      or the one whose launch raised; there are error blocks exactly when some attempted
      dump failed; and when there are none and nothing raised, every configured
      collection was attempted and succeeded. */
  lemma RunTallies(config: Config, backupType: string, env: RunEnv)
    requires EnvFits(config, env)
    ensures var atts := AttemptedAttempts(env);
      var errors := RunErrors(config, backupType, env);
      && |atts| <= |config.collections|
      && CountSucceeded(atts) + |errors| + (if Escape(env.attempts).Some? then 1 else 0) == |atts|
      && (errors != [] <==> exists i :: 0 <= i < |atts| && Failed(atts[i]))
      && (errors == [] && Escape(env.attempts).None? ==>
            && CountSucceeded(atts) == |config.collections|
            && forall i :: 0 <= i < |config.collections| ==> Succeeded(env.attempts[i]))
  {
    LoopTallies(RunCtx(config, backupType, env), config.collections, env.attempts);
  }

  lemma LoopTallies(ctx: RunContext, cols: seq<string>, atts: seq<Attempt>)
    requires |cols| == |atts|
    ensures var n := Attempted(atts);
      var blocks := FailureBlocks(ctx, cols[..n], atts[..n]);
      && CountSucceeded(atts[..n]) + |blocks| + (if Escape(atts).Some? then 1 else 0) == n
      && (blocks != [] <==> exists i :: 0 <= i < n && Failed(atts[..n][i]))
      && (blocks == [] && Escape(atts).None? ==>
            && CountSucceeded(atts[..n]) == |atts|
            && forall i :: 0 <= i < |atts| ==> Succeeded(atts[i]))
  {
    var n := Attempted(atts);
    SuccessesPlusFailures(ctx, cols[..n], atts[..n]);
    if Escape(atts).Some? {
      EscapedTallies(ctx, cols, atts);
    } else {
      CaughtTallies(ctx, cols, atts);
    }
  }

  lemma EscapedTallies(ctx: RunContext, cols: seq<string>, atts: seq<Attempt>)
    requires |cols| == |atts| && Escape(atts).Some?
    ensures var n := Attempted(atts);
      CountSucceeded(atts[..n]) + |FailureBlocks(ctx, cols[..n], atts[..n])| + 1 == n
  {
    var f := FirstFatal(atts);
    var ats := atts[..f + 1];
    assert ats[f] == atts[f];
    assert forall i :: 0 <= i < f ==> ats[i] == atts[i];
    LastRaisedTallies(ctx, cols[..f + 1], ats);
  }

  lemma LastRaisedTallies(ctx: RunContext, cols: seq<string>, atts: seq<Attempt>)
    requires |cols| == |atts| > 0 && atts[|atts| - 1].outcome.Raised?
    requires forall i :: 0 <= i < |atts| - 1 ==> !atts[i].outcome.Raised?
    ensures CountSucceeded(atts) + |FailureBlocks(ctx, cols, atts)| + 1 == |atts|
  {
    var n := |atts| - 1;
    assert forall i :: 0 <= i < n ==> atts[..n][i] == atts[i];
    SuccessesPlusFailures(ctx, cols[..n], atts[..n]);
  }

  lemma CaughtTallies(ctx: RunContext, cols: seq<string>, atts: seq<Attempt>)
    requires |cols| == |atts| && Escape(atts).None?
    ensures var n := Attempted(atts);
      var blocks := FailureBlocks(ctx, cols[..n], atts[..n]);
      && CountSucceeded(atts[..n]) + |blocks| == n
      && (blocks == [] ==> CountSucceeded(atts[..n]) == |atts| && forall i :: 0 <= i < |atts| ==> Succeeded(atts[i]))
  {
    var n := Attempted(atts);
    var f := FirstFatal(atts);
    SuccessesPlusFailures(ctx, cols[..n], atts[..n]);
    assert forall i :: 0 <= i < n ==> atts[..n][i] == atts[i];
    assert f < |atts| ==> Failed(atts[..n][f]);
    if FailureBlocks(ctx, cols[..n], atts[..n]) == [] {
      assert atts[..n] == atts;
    }
  }

  /** The summary: a failure summary exactly when some dump failed, reporting the
      successes against the configured number and all error blocks; otherwise, unless the
      version probe raises, a success summary whose `success_count` is the configured
      number. Without an exception from the loop, a run raises only on the success path. */
  lemma SummaryChoice(config: Config, backupType: string, env: RunEnv)
    requires EnvFits(config, env) && env.makedirsError.None?
    ensures var r := ExecuteSpec(config, backupType, env);
      var atts := AttemptedAttempts(env);
      var errors := RunErrors(config, backupType, env);
      var last := r.events[|r.events| - 1];
      && (r.raised.Some? && Escape(env.attempts).None? ==> errors == [])
      && (r.raised.None? && errors != [] ==>
            last == Notify(FailureSummary(CountSucceeded(atts), |config.collections|, RunCtx(config, backupType, env).outputPath, errors), None))
      && (r.raised.None? && errors == [] ==>
            last.Notify? && last.message.SuccessSummary?
            && last.message.successCount == |config.collections|)
  {
    var ctx := RunCtx(config, backupType, env);
    var cols, atts := AttemptedCollections(config, env), AttemptedAttempts(env);
    var errors := RunErrors(config, backupType, env);
    var fin := RunEnd(config, backupType, ctx.outputPath, env, CountSucceeded(atts), errors, SizesAfter(ctx, cols, atts));
    RunEventsSplit(config, backupType, env);
    RunTallies(config, backupType, env);
    EndLast(config, backupType, ctx.outputPath, env, CountSucceeded(atts), errors, SizesAfter(ctx, cols, atts));
    if fin.events != [] {
      var pre := [MakeDirs(ctx.outputPath), Notify(StartNotice(backupType, config.databaseName, ctx.outputPath, config.collections), None)]
                 + LoopEvents(ctx, cols, atts);
      LastOfAppend(pre, fin.events);
    }
  }

  /** What follows the loop ends with the summary unless the run raises: the failure
      summary when an error was recorded, otherwise the success summary. */
  lemma EndLast(config: Config, backupType: string, out: string, env: RunEnv,
                successCount: nat, errors: seq<ErrorBlock>, sizes: seq<(string, nat)>)
    ensures var fin := RunEnd(config, backupType, out, env, successCount, errors, sizes);
      && (fin.raised.Some? && Escape(env.attempts).None? ==> errors == [])
      && (fin.raised.None? ==> fin.events != [])
      && (fin.raised.None? && errors != [] ==>
            fin.events[|fin.events| - 1] == Notify(FailureSummary(successCount, |config.collections|, out, errors), None))
      && (fin.raised.None? && errors == [] ==>
            var last := fin.events[|fin.events| - 1];
            last.Notify? && last.message.SuccessSummary? && last.message.successCount == successCount)
  {
  }

  /** The success report of a run: without an exception from the loop, a run raises only
      because the version probe raised (that exception) or printed nothing on exit 0
      (`IndexError`). A run that neither failed nor raised attempted every collection and
      ends with the success summary: every collection counted, the folder size of the
      output tree, the first output line of the probe on exit 0 and "No disponible"
      otherwise, both free-space readings, and the loop's `collection_sizes`. */
  lemma RunReport(config: Config, backupType: string, env: RunEnv)
    requires EnvFits(config, env) && env.makedirsError.None?
    ensures var r := ExecuteSpec(config, backupType, env);
      r.raised.Some? && Escape(env.attempts).None? ==>
        || (env.version.VersionRaised? && r.raised == Some(env.version.error))
        || (env.version == VersionExited(0, []) && r.raised == Some(PyError("IndexError", "list index out of range")))
    ensures var r := ExecuteSpec(config, backupType, env);
      var ctx := RunCtx(config, backupType, env);
      r.raised.None? && RunErrors(config, backupType, env) == [] ==>
        && AttemptedAttempts(env) == env.attempts
        && AttemptedCollections(config, env) == config.collections
        && env.version.VersionExited?
        && (env.version.code == 0 ==> env.version.stdoutLines != [])
        && r.events[|r.events| - 1] ==
             Notify(SuccessSummary(backupType, |config.collections|, FolderSizeText(env.outputTree),
                                   env.startTime, env.endTime,
                                   if env.version.code == 0 then env.version.stdoutLines[0] else "No disponible",
                                   env.freeBeforeBytes, env.freeAfterBytes,
                                   SizesAfter(ctx, config.collections, env.attempts), ctx.outputPath), None)
  {
    var ctx := RunCtx(config, backupType, env);
    var cols, atts := AttemptedCollections(config, env), AttemptedAttempts(env);
    var errors := RunErrors(config, backupType, env);
    var fin := RunEnd(config, backupType, ctx.outputPath, env, CountSucceeded(atts), errors, SizesAfter(ctx, cols, atts));
    RunEventsSplit(config, backupType, env);
    if Escape(env.attempts).None? {
      FinishCases(config, backupType, ctx.outputPath, env, CountSucceeded(atts), errors, SizesAfter(ctx, cols, atts));
      if fin.raised.None? && errors == [] {
        RunTallies(config, backupType, env);
        assert atts == env.attempts;
        assert cols == config.collections;
        var pre := [MakeDirs(ctx.outputPath), Notify(StartNotice(backupType, config.databaseName, ctx.outputPath, config.collections), None)]
                   + LoopEvents(ctx, cols, atts);
        LastOfAppend(pre, fin.events);
      }
    }
  }

  lemma LastOfAppend(pre: seq<Event>, post: seq<Event>)
    requires post != []
    ensures (pre + post)[|pre + post| - 1] == post[|post| - 1]
  {
  }

  /** An exception from a launch ends the run: it leaves `execute_mongodump` as the run's
      exception, the last effect is the launch that raised, and no summary is sent (the
      messages are the start notice and the error notices so far). */
  lemma EscapeEndsRun(config: Config, backupType: string, env: RunEnv)
    requires EnvFits(config, env) && env.makedirsError.None? && Escape(env.attempts).Some?
    ensures var r := ExecuteSpec(config, backupType, env);
      var ctx := RunCtx(config, backupType, env);
      var n := Attempted(env.attempts);
      var errors := RunErrors(config, backupType, env);
      && 0 < n
      && r.raised == Some(env.attempts[n - 1].outcome.error)
      && r.events[|r.events| - 1] == RunTool(DumpCommand(ctx, config.collections[n - 1]))
      && Notices(r.events) == [StartNotice(backupType, config.databaseName, ctx.outputPath, config.collections)] + ErrorNotices(errors)
  {
    var ctx := RunCtx(config, backupType, env);
    var cols, atts := AttemptedCollections(config, env), AttemptedAttempts(env);
    var n := Attempted(env.attempts);
    var errors := RunErrors(config, backupType, env);
    var start := StartNotice(backupType, config.databaseName, ctx.outputPath, config.collections);
    EscapeTrace(config, backupType, env);
    assert atts[n - 1].outcome.Raised? && cols[n - 1] == config.collections[n - 1];
    RaisedLoopShape(ctx, ctx.outputPath, start, cols, atts);
  }

  /** The trace of a run whose last attempt raised: the head, then the loop, which ends with
      that attempt's launch; the messages are the head's and the loop's error notices. */
  lemma RaisedLoopShape(ctx: RunContext, path: string, start: Message, cols: seq<string>, atts: seq<Attempt>)
    requires |cols| == |atts| > 0 && atts[|atts| - 1].outcome.Raised?
    ensures var t := [MakeDirs(path), Notify(start, None)] + LoopEvents(ctx, cols, atts);
      && t[|t| - 1] == RunTool(DumpCommand(ctx, cols[|cols| - 1]))
      && Notices(t) == [start] + ErrorNotices(FailureBlocks(ctx, cols, atts))
  {
    var loop := LoopEvents(ctx, cols, atts);
    var head := [MakeDirs(path), Notify(start, None)];
    HeadEffects(path, start, loop, []);
    assert head + loop + [] == head + loop;
    LoopEffects(ctx, cols, atts);
    LoopEndsWithLaunch(ctx, cols, atts);
    LastOfAppend(head, loop);
  }

  lemma EscapeTrace(config: Config, backupType: string, env: RunEnv)
    requires EnvFits(config, env) && env.makedirsError.None? && Escape(env.attempts).Some?
    ensures var r := ExecuteSpec(config, backupType, env);
      var ctx := RunCtx(config, backupType, env);
      var start := StartNotice(backupType, config.databaseName, ctx.outputPath, config.collections);
      && r.events == [MakeDirs(ctx.outputPath), Notify(start, None)]
                     + LoopEvents(ctx, AttemptedCollections(config, env), AttemptedAttempts(env))
      && r.raised == Escape(env.attempts)
  {
    var ctx := RunCtx(config, backupType, env);
    var cols, atts := AttemptedCollections(config, env), AttemptedAttempts(env);
    var errors := RunErrors(config, backupType, env);
    var fin := RunEnd(config, backupType, ctx.outputPath, env, CountSucceeded(atts), errors, SizesAfter(ctx, cols, atts));
    assert fin == RunResult([], Escape(env.attempts));
    RunEventsSplit(config, backupType, env);
    var pre := [MakeDirs(ctx.outputPath), Notify(StartNotice(backupType, config.databaseName, ctx.outputPath, config.collections), None)]
               + LoopEvents(ctx, cols, atts);
    assert pre + fin.events == pre;
  }

  /** A loop whose last attempt raised ends with that attempt's launch. */
  lemma LoopEndsWithLaunch(ctx: RunContext, cols: seq<string>, atts: seq<Attempt>)
    requires |cols| == |atts| > 0 && atts[|atts| - 1].outcome.Raised?
    ensures var t := LoopEvents(ctx, cols, atts); t != [] && t[|t| - 1] == RunTool(DumpCommand(ctx, cols[|cols| - 1]))
  {
  }

  // ---------------------------------------------------------------------------
  // Worked runs over the collections A, B and C.

  /** A failing dump does not stop the run: with [A, B, C] configured and only B exiting
      with code 1, all three are attempted, 2 succeed, and the one block is B's
      connection/authentication failure. */
  lemma MiddleFailureExample(ctx: RunContext, a: Attempt, b: Attempt, c: Attempt)
    requires Succeeded(a) && Succeeded(c) && b.outcome.Exited? && b.outcome.code == 1
    ensures var cols, atts := ["A", "B", "C"], [a, b, c];
      var blocks := FailureBlocks(ctx, cols, atts);
      && Attempted(atts) == 3
      && CountSucceeded(atts) == 2
      && |blocks| == 1
      && blocks[0].DumpFailed?
      && blocks[0].collection == "B"
      && blocks[0].cause == ConnectionOrAuthentication
  {
    var cols, atts := ["A", "B", "C"], [a, b, c];
    FirstFatalUnique(atts, 3);
    assert cols[..2] == ["A", "B"] && atts[..2] == [a, b];
    assert ["A", "B"][..1] == ["A"] && [a, b][..1] == [a];
    assert ["A"][..0] == [] && [a][..0] == [];
    assert CountSucceeded([a]) == 1;
    assert CountSucceeded([a, b]) == 1;
    assert FailureBlocks(ctx, ["A"], [a]) == [];
    assert FailureBlocks(ctx, ["A", "B"], [a, b]) == [FailureBlock(ctx, "B", b)];
  }

  /** In that run all three dump commands are launched, in order, no version probe
      follows, and the run ends with the failure summary "2/3" listing B's block. */
  lemma MiddleFailureDumpsAll(config: Config, backupType: string, env: RunEnv)
    requires EnvFits(config, env) && env.makedirsError.None? && config.collections == ["A", "B", "C"]
    requires Succeeded(env.attempts[0]) && Succeeded(env.attempts[2])
    requires env.attempts[1].outcome.Exited? && env.attempts[1].outcome.code == 1
    ensures var r := ExecuteSpec(config, backupType, env);
      var ctx := RunCtx(config, backupType, env);
      var errors := RunErrors(config, backupType, env);
      && ToolRuns(r.events) == [DumpCommand(ctx, "A"), DumpCommand(ctx, "B"), DumpCommand(ctx, "C")]
      && r.raised.None?
      && |errors| == 1 && errors[0].DumpFailed? && errors[0].collection == "B"
      && r.events[|r.events| - 1] == Notify(FailureSummary(2, 3, ctx.outputPath, errors), None)
  {
    var ctx := RunCtx(config, backupType, env);
    MiddleFailureTallies(config, backupType, env);
    RunEffectsInOrder(config, backupType, env);
    SummaryChoice(config, backupType, env);
    var cmds := Commands(ctx, ["A", "B", "C"]);
    assert cmds == [cmds[0], cmds[1], cmds[2]];
  }

  lemma MiddleFailureTallies(config: Config, backupType: string, env: RunEnv)
    requires EnvFits(config, env) && config.collections == ["A", "B", "C"]
    requires Succeeded(env.attempts[0]) && Succeeded(env.attempts[2])
    requires env.attempts[1].outcome.Exited? && env.attempts[1].outcome.code == 1
    ensures var errors := RunErrors(config, backupType, env);
      && AttemptedCollections(config, env) == ["A", "B", "C"]
      && Escape(env.attempts).None?
      && CountSucceeded(AttemptedAttempts(env)) == 2
      && |errors| == 1 && errors[0].DumpFailed? && errors[0].collection == "B"
  {
    var ctx := RunCtx(config, backupType, env);
    var a, b, c := env.attempts[0], env.attempts[1], env.attempts[2];
    assert env.attempts == [a, b, c];
    MiddleFailureExample(ctx, a, b, c);
    assert AttemptedAttempts(env) == [a, b, c];
  }

  /** A missing executable ends the loop: with [A, B, C] configured and `mongodump`
      missing at B, only A and B are attempted, and the one block is the fatal one. */
  lemma FatalStopsExample(ctx: RunContext, a: Attempt, b: Attempt, c: Attempt)
    requires Succeeded(a) && b.outcome.ExecutableNotFound?
    ensures var cols, atts := ["A", "B", "C"], [a, b, c];
      var n := Attempted(atts);
      && n == 2
      && Escape(atts).None?
      && CountSucceeded(atts[..n]) == 1
      && FailureBlocks(ctx, cols[..n], atts[..n]) == [ToolMissing(b.errorTime, b.freeBytes)]
  {
    var cols, atts := ["A", "B", "C"], [a, b, c];
    FirstFatalUnique(atts, 1);
    assert cols[..2] == ["A", "B"] && atts[..2] == [a, b];
    assert ["A", "B"][..1] == ["A"] && [a, b][..1] == [a];
    assert ["A"][..0] == [] && [a][..0] == [];
    assert CountSucceeded([a]) == 1;
    assert FailureBlocks(ctx, ["A"], [a]) == [];
    assert FailureBlocks(ctx, ["A", "B"], [a, b]) == [FailureBlock(ctx, "B", b)];
  }

  /** In that run C's dump command is never launched. */
  lemma FatalStopsDumps(config: Config, backupType: string, env: RunEnv)
    requires EnvFits(config, env) && env.makedirsError.None? && config.collections == ["A", "B", "C"]
    requires Succeeded(env.attempts[0]) && env.attempts[1].outcome.ExecutableNotFound?
    ensures var ctx := RunCtx(config, backupType, env);
      ToolRuns(ExecuteSpec(config, backupType, env).events) == [DumpCommand(ctx, "A"), DumpCommand(ctx, "B")]
  {
    var ctx := RunCtx(config, backupType, env);
    var cmds := Commands(ctx, ["A", "B"]);
    assert cmds == [cmds[0], cmds[1]];
    FatalStopsTallies(config, backupType, env);
    RunEffectsInOrder(config, backupType, env);
    assert RunErrors(config, backupType, env) != [];
  }

  /** That run ends with the failure summary "1/3" listing the fatal block. */
  lemma FatalStopsSummary(config: Config, backupType: string, env: RunEnv)
    requires EnvFits(config, env) && env.makedirsError.None? && config.collections == ["A", "B", "C"]
    requires Succeeded(env.attempts[0]) && env.attempts[1].outcome.ExecutableNotFound?
    ensures var r := ExecuteSpec(config, backupType, env);
      var b := env.attempts[1];
      var errors := RunErrors(config, backupType, env);
      && r.raised.None?
      && errors == [ToolMissing(b.errorTime, b.freeBytes)]
      && r.events[|r.events| - 1] == Notify(FailureSummary(1, 3, RunCtx(config, backupType, env).outputPath, errors), None)
  {
    FatalStopsTallies(config, backupType, env);
    SummaryChoice(config, backupType, env);
  }

  lemma FatalStopsTallies(config: Config, backupType: string, env: RunEnv)
    requires EnvFits(config, env) && config.collections == ["A", "B", "C"]
    requires Succeeded(env.attempts[0]) && env.attempts[1].outcome.ExecutableNotFound?
    ensures var b := env.attempts[1];
      && AttemptedCollections(config, env) == ["A", "B"]
      && Escape(env.attempts).None?
      && CountSucceeded(AttemptedAttempts(env)) == 1
      && RunErrors(config, backupType, env) == [ToolMissing(b.errorTime, b.freeBytes)]
  {
    var a, b, c := env.attempts[0], env.attempts[1], env.attempts[2];
    assert env.attempts == [a, b, c];
    FatalStopsExample(RunCtx(config, backupType, env), a, b, c);
    assert Attempted(env.attempts) == 2;
  }

  /** An uncaught exception at B's launch ends the run there: A and B are launched, C is
      not, the exception leaves the run, and only the start notice was sent. */
  lemma EscapeStopsDumps(config: Config, backupType: string, env: RunEnv)
    requires EnvFits(config, env) && env.makedirsError.None? && config.collections == ["A", "B", "C"]
    requires Succeeded(env.attempts[0]) && env.attempts[1].outcome.Raised?
    ensures var r := ExecuteSpec(config, backupType, env);
      var ctx := RunCtx(config, backupType, env);
      && ToolRuns(r.events) == [DumpCommand(ctx, "A"), DumpCommand(ctx, "B")]
      && r.raised == Some(env.attempts[1].outcome.error)
      && Notices(r.events) == [StartNotice(backupType, config.databaseName, ctx.outputPath, ["A", "B", "C"])]
  {
    var ctx := RunCtx(config, backupType, env);
    EscapeStopsTallies(config, backupType, env);
    RunEffectsInOrder(config, backupType, env);
    EscapeEndsRun(config, backupType, env);
    var cmds := Commands(ctx, ["A", "B"]);
    assert cmds == [cmds[0], cmds[1]];
  }

  lemma EscapeStopsTallies(config: Config, backupType: string, env: RunEnv)
    requires EnvFits(config, env) && config.collections == ["A", "B", "C"]
    requires Succeeded(env.attempts[0]) && env.attempts[1].outcome.Raised?
    ensures && AttemptedCollections(config, env) == ["A", "B"]
            && Attempted(env.attempts) == 2
            && RunErrors(config, backupType, env) == []
  {
    var a, b, c := env.attempts[0], env.attempts[1], env.attempts[2];
    assert env.attempts == [a, b, c];
    FirstFatalUnique(env.attempts, 1);
    RunTallies(config, backupType, env);
    assert AttemptedAttempts(env) == [a, b];
  }
}
