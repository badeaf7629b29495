# MongoDB backup script — a Dafny model

This project models the decision logic of a small Python MongoDB backup script and proves
properties of it. The script is run from a scheduler. It decides from today's date whether
a monthly and/or a weekly backup is due. It then runs `mongodump` once per configured
collection into a dated folder and reports by messages: a start notice, one notice per
failed collection, and a final failure or success summary.

The model has six modules:

- `Wrappers` (`wrappers.dfy`): `Option`.
- `Text` (`text.dfy`): zero-padded `strftime` digits, POSIX `os.path.join` and
  `os.path.basename`, and `" ".join`.
- `Calendar` (`calendar.dfy`): an integer proleptic Gregorian calendar.
  - `date + timedelta(days=1)`, including the `OverflowError` on 9999-12-31.
  - `is_last_day_of_month`.
  - `date.weekday()` and `strftime('%A')`, derived from Python's day ordinal.
- `FolderSize` (`foldersize.dfy`): `get_folder_size`. The `os.walk` loop sums the sizes of
  files that are not symbolic links. The unit loop divides by 1024 over B…TB and falls
  back to PB.
- `BackupExecutor` (`executor.dfy`): `execute_mongodump`.
  - The folder name and the `mongodump` command line.
  - The loop over the collections, with its success count, error blocks and
    `collection_sizes` dict, its `break` on a missing executable, and the exceptions it
    does not catch.
  - The exit-code classification and the final summary.
- `BackupMain` (`main.dfy`): `main`.
  - The `--type` override, and the monthly and weekly due flags.
  - The exit when nothing is due.
  - Monthly before weekly, inside one handler that turns any escaping exception into a
    critical message and exit status 1.

The environment is passed in as data, because nothing here runs a process, touches a
disk or reads a clock:

- Each collection has an `Attempt`:
  - the outcome of launching `mongodump`: an exit code with its stderr, the executable
    not found, or any other exception the launch raises (`PermissionError` or another
    `OSError`, or a `UnicodeDecodeError` while decoding the output);
  - the time and free space read if the dump fails;
  - a map from the artifact path to its size in bytes, standing in for
    `os.path.exists` / `getsize`.
- Each run has a `RunEnv` holding everything else it reads:
  - `datetime.now()`;
  - whether `os.makedirs` raises;
  - the `os.walk` tree of the output folder;
  - the two `disk_usage` readings;
  - the outcome of `mongodump --version`.

A run returns its effects as a trace of `Event`s: folder creation, launch attempt of a
program, file write and message (with its optional attachment), in order. It also returns the Python exception that escapes it, if
any. Messages are datatypes carrying the values the text is built from, not the text.

Each imperative piece of the source is a method, proved equal to a function of its
inputs, and each property is a lemma about those functions:

- `SumRegularFiles`, `SelectUnit` and `GetFolderSize`;
- `DumpOne`, `DumpCollections`, `FinalReport` and `ExecuteMongodump`;
- `RunDue` and `RunMain`.

Where the code does less than its own comments, messages and names suggest, the model
follows the code:

- The error file's time stamp (`error_<collection>_<stamp>.txt`) is the run's start time
  `now` (backup_executor.py:88), not the error time the same report shows
  (backup_executor.py:83).
- Both free-space readings of the success summary are taken after the dumps
  (backup_executor.py:141-143), although the comment at backup_executor.py:142 and the
  label at backup_executor.py:154 call the first one the space "before" the backup.
- A failed version probe reports `No disponible` (backup_executor.py:145).
- The version probe can raise (backup_executor.py:144-145): any exception its launch or
  the decoding of its output raises (`FileNotFoundError`, `PermissionError` or another
  `OSError`, `UnicodeDecodeError`), and `IndexError` if it exits 0 with empty output.
  Nothing catches these in `execute_mongodump`; `main` sends a critical message and
  exits 1. The model does not tie the probe's outcome to the dumps' outcomes.
- A missing executable makes the loop `break`. Later collections are skipped: they get no
  result at all.
- Only two exceptions of the launch are caught (backup_executor.py:81, 113), although the
  handler at backup_executor.py:113-114 is the one meant for a `mongodump` that cannot be
  run. Any other exception, such as a `PermissionError` for a `mongodump` that cannot be
  executed, leaves `execute_mongodump` with no summary sent. `main` reports it as a
  critical error (main.py:65-74).
- The monthly and weekly runs are decided separately (main.py:40-53) but run inside one
  `try` block (main.py:60-65), so a monthly run that raises keeps the weekly run from
  being attempted.

## Model

| member | source | states |
|---|---|---|
| `Calendar.DaysInMonth` | utils.py:28-36 | Each month has 28 to 31 days; February has 29 exactly in leap years (Gregorian rule). |
| `Calendar.AddOneDay` | utils.py:36 | The next day is undefined (`OverflowError`) exactly on 9999-12-31; otherwise it is a valid date. |
| `Calendar.IsLastDayOfMonth` | utils.py:28-36 | Undefined exactly on 9999-12-31; otherwise true iff the day equals the number of days of its month, i.e. iff the next day's month differs. |
| `Calendar.LastDayExamples` | utils.py:28-36 | Feb 28 in 1900 and 2023, Feb 29 in 2000 and 2024, Dec 31 and Apr 30 are last days; Feb 28 2024 and May 30 are not. |
| `Calendar.YearLength` | utils.py:36 | A year has 366 days if leap, else 365, in Python's day ordinal. |
| `Calendar.OrdinalOfNextDay` | utils.py:36 | The next day's ordinal is one more, across month and year ends. |
| `Calendar.Ordinal` | main.py:33-34 | Definition: `date.toordinal()`, the days before the year and the month plus the day, with 0001-01-01 as day 1; `weekday()` is computed from it, and its step is `OrdinalOfNextDay`. |
| `Calendar.Weekday` | main.py:33-34 | `weekday()` is in 0..6. |
| `Calendar.WeekdayOfNextDay` | main.py:33-34 | Consecutive dates have consecutive weekdays (mod 7). |
| `Calendar.WeekdayName` | main.py:34 | `strftime('%A')` is the weekday's English name, and a date has the j-th name (Monday first) exactly when its weekday is j. |
| `Calendar.WeekdayExamples` | main.py:33-34 | 0001-01-01 is a Monday, 2000-01-01 a Saturday, 2024-02-29 a Thursday, 2024-03-13 a Wednesday. |
| `Text.PadDigits` | backup_executor.py:24-28 | `%Y`/`%m`/`%d` give exactly `width` decimal digits. |
| `Text.ParsePadDigits` | backup_executor.py:24-28 | Reading the padded digits back gives the number. |
| `Text.PadDigitsInjective` | backup_executor.py:24-28 | Two numbers pad to the same digits iff they are equal. |
| `Text.PadDigitsNoSlash` | backup_executor.py:88 | Padded digits contain no path separator. |
| `Text.PathJoinShape` | backup_executor.py:30 | `os.path.join` with an absolute second part returns it; otherwise the result starts with the first part and ends with the second. |
| `Text.PathJoin` | backup_executor.py:30 | `os.path.join` on POSIX: the result is at least as long as its second part; its shape is `PathJoinShape`. |
| `Text.Basename` | backup_executor.py:98 | A base name contains no `/`. |
| `Text.BasenameOfJoin` | backup_executor.py:88-98 | The base name of a directory joined with a plain file name is that file name. |
| `Text.JoinWith` | backup_executor.py:84 | Definition: `sep.join(parts)`, the parts with the separator between consecutive ones; `DumpFailedBlock` uses it for the reported command. |
| `FolderSize.DirBytesAppend` | utils.py:15-19 | The byte total over two lists of files is the sum of their totals. |
| `FolderSize.LinkSizesIgnored` | utils.py:18-19 | Changing the size of a symbolic link leaves the total unchanged. |
| `FolderSize.SumRegularFiles` | utils.py:15-19 | The nested walk loops return the sum of the sizes of all non-link files of all walked directories. |
| `FolderSize.UnitIndex` | utils.py:22-26 | The unit index is the least k ≤ 4 with size < 1024^(k+1), or 5 (PB) if there is none. |
| `FolderSize.UnitIndexUnique` | utils.py:22-26 | Exactly one index has that property. |
| `FolderSize.SelectUnit` | utils.py:22-26 | The division loop returns the size divided by 1024^k with the k-th unit of B, KB, MB, GB, TB, PB, for that least k. |
| `FolderSize.FormatSize` | utils.py:21-26 | The size text of n bytes has the unit of index `UnitIndex(n)`, a value that is never negative, and value × 1024^index = n exactly. |
| `FolderSize.FolderSizeText` | utils.py:11-26 | `get_folder_size` of a path: a missing path reads like a folder of 0 bytes, an existing one as its non-link byte total. |
| `FolderSize.GetFolderSize` | utils.py:4-26 | A missing folder gives 0 B; otherwise the non-link byte total in its unit. |
| `FolderSize.FormatSizeBounds` | utils.py:12-26 | Below PB the value before `:3.1f` rounding (the one compared at utils.py:23) is < 1024; PB exactly from 1024^5 bytes on, with no higher unit; the value is never negative; an empty tree and a missing folder both give 0 B. |
| `FolderSize.FormatSizeExamples` | utils.py:22-26 | 0 → 0 B, 1023 → 1023 B, 1536 → 1.5 KB, 2^30 → 1 GB. |
| `BackupExecutor.Classify` | backup_executor.py:102-107 | Exit code 1 is a connection/authentication failure, 100 an unrecognised command / PATH, anything else unknown. |
| `BackupExecutor.FolderName` | backup_executor.py:24-28 | Definition: `backup_mensual_YYYY-MM` for kind `'monthly'`, `backup_semanal_YYYY-MM-DD` for any other kind; its properties are `FolderNameFields` and `FolderNamesDistinct`. |
| `BackupExecutor.FolderNameFields` | backup_executor.py:24-28 | A folder name has no `/`, starts with the prefix of its kind, is 22 (monthly) or 25 characters long, and holds the padded year, month and (non-monthly) day at fixed places. |
| `BackupExecutor.OutputPath` | backup_executor.py:30 | Definition: the folder name joined to the configured backup directory. |
| `BackupExecutor.OutputPathFolder` | backup_executor.py:24-30 | The base name of the output path is the run's folder name. |
| `BackupExecutor.FileStamp` | backup_executor.py:88 | Definition: the `%Y%m%d_%H%M%S` stamp of `now`; its properties are `FileStampFields`. |
| `BackupExecutor.DumpCommand` | backup_executor.py:56-63 | Definition: the ten-element `mongodump` argument vector of one collection; its properties are `DumpCommandOptions`. |
| `BackupExecutor.DumpCommandOptions` | backup_executor.py:56-63 | The command has ten elements, starts with `mongodump` and ends with `--gzip`; read as option pairs, `--uri`, `--db`, `--collection` and `--out` give the URI, the database, the collection and the output folder. |
| `BackupExecutor.ArtifactPath` | backup_executor.py:77 | Definition: `<output>/<db>/<collection>.bson.gz`. |
| `BackupExecutor.ErrorFilePath` | backup_executor.py:88 | Definition: `<output>/error_<collection>_<stamp>.txt`. |
| `BackupExecutor.DumpFileNames` | backup_executor.py:77-98 | For a collection name without `/`, the artifact's base name is `<collection>.bson.gz` and the error file's is `error_<collection>_<stamp>.txt`. |
| `BackupExecutor.FolderNamesDistinct` | backup_executor.py:25-28 | Two folder names are equal iff both kinds are `'monthly'` or both are not, with the same year and month and, for non-monthly kinds, the same day. Any kind other than `'monthly'` is named as weekly. |
| `BackupExecutor.FileStampFields` | backup_executor.py:88 | The `%Y%m%d_%H%M%S` stamp of the run start is 15 characters with `_` at index 8 and no `/`; year, month, day, hour, minute and second read back from their fixed places. |
| `BackupExecutor.Commands` | backup_executor.py:54-63 | The i-th command is `mongodump --uri U --db D --collection C_i --out P --gzip` for the i-th collection. |
| `BackupExecutor.DictGet` | backup_executor.py:53 | A key has a value iff it is among the dict's keys. |
| `BackupExecutor.DictSet` | backup_executor.py:79 | After `d[k] = v`, `k` maps to `v`, every other key keeps its value, the keys gain `k`, and keys stay unique. |
| `BackupExecutor.DictSetOrder` | backup_executor.py:79 | `d[k] = v` keeps an existing key in its place, so the order of the keys is unchanged, and appends a new key at the end (the order `.items()` shows at backup_executor.py:156). |
| `BackupExecutor.FirstFatal` | backup_executor.py:67-126 | The loop stops at the first attempt whose launch is fatal (executable missing, or an exception the loop does not catch): none before it is fatal, and it is fatal unless no collection is left. |
| `BackupExecutor.FirstFatalUnique` | backup_executor.py:67-126 | That stopping point is the only index with this property. |
| `BackupExecutor.FatalStep` | backup_executor.py:67-126 | A fatal attempt ends the loop after its own collection, and the exception leaving the loop is that attempt's own when it raised one; a non-fatal attempt lets the next be reached. |
| `BackupExecutor.EscapeCharacterized` | backup_executor.py:67-74 | When no earlier attempt was fatal, an attempt whose launch raised makes its exception the one that leaves the loop; no exception leaves when none of the reached attempts raised. |
| `BackupExecutor.ErrorNotices` | backup_executor.py:109 | One error notice per error block, in the same order. |
| `BackupExecutor.AttemptEventsShape` | backup_executor.py:67-126 | Dumping one collection launches exactly its command, and sends one notice with its error block exactly when the dump fails. The events are exactly: the launch alone for a success or an uncaught exception; the launch and a notice without attachment for a missing executable; for a nonzero exit, the launch, the write of stderr to `ErrorFilePath`, then the notice with that file attached. |
| `BackupExecutor.AttemptEvents` | backup_executor.py:67-126 | Definition: the effects of one loop iteration; their shape is `AttemptEventsShape`. |
| `BackupExecutor.DumpFailedBlock` | backup_executor.py:81-108 | The block for a nonzero exit holds the collection, the space-joined command, the exit code and its classification. It attaches `error_<collection>_<stamp>.txt` from the output folder. |
| `BackupExecutor.FailureBlock` | backup_executor.py:81-124 | Definition: the error block of a failed attempt. A nonzero exit gives the report of backup_executor.py:83-107 (time, collection, joined command, code, error file name, free space, cause); a missing executable gives the report of backup_executor.py:115-122 (time, free space). `DumpFailedBlock` states the fields of the first, `AttemptEventsShape` the second. |
| `BackupExecutor.DumpOne` | backup_executor.py:67-126 | One loop iteration adds one success exactly for exit 0. It adds one error block exactly for a failure, and records the artifact's size only after a success with the artifact present. It appends the iteration's effects and stops exactly on a fatal launch (missing executable or uncaught exception), returning the exception when one was raised. |
| `BackupExecutor.SuccessesPlusFailures` | backup_executor.py:54-126 | Successes plus error blocks are at most the attempts, and equal them when no launch raised; there are no blocks iff no attempt failed (a nonzero exit or a missing executable). |
| `BackupExecutor.LoopEffects` | backup_executor.py:54-126 | The loop launches one dump per attempted collection, in configured order. Its messages are the error notices in the order the blocks were recorded. |
| `BackupExecutor.LoopSizes` | backup_executor.py:77-79 | `collection_sizes` has unique keys. It maps a collection to the size of the artifact of its last successful dump whose artifact existed. A missing artifact records nothing. |
| `BackupExecutor.DumpCollections` | backup_executor.py:49-126 | The loop leaves count, blocks, sizes and effects equal to their definitions over the collections up to and including the first fatal one, and returns the exception that leaves it. |
| `BackupExecutor.FinishCases` | backup_executor.py:128-158 | The final report takes one of three shapes. Errors recorded: a failure summary, with nothing launched. No errors: the version probe, then a success summary unless the probe raises. Without errors it raises exactly when the probe raised (that exception) or exited 0 with no output (`IndexError`); otherwise the events are the probe and the success summary, carrying the count, `FolderSizeText` of the output tree, both times, the first output line on exit 0 or `No disponible`, both free-space readings, the sizes and the output path. |
| `BackupExecutor.Finish` | backup_executor.py:128-158 | Definition: the effects and exception of the final report; its shapes are `FinishCases`. |
| `BackupExecutor.RunEnd` | backup_executor.py:67-158 | Definition: nothing after the loop when an exception left it, otherwise `Finish`; its properties are `EndEffects`, `EndSendsSummary` and `EndLast`. |
| `BackupExecutor.EndEffects` | backup_executor.py:128-158 | After the loop the version probe is launched iff no error block was recorded and no exception left the loop; one summary is sent unless the run raises; when an exception left the loop nothing follows it. |
| `BackupExecutor.EndSendsSummary` | backup_executor.py:128-158 | The only message sent after the loop is a summary. |
| `BackupExecutor.EndLast` | backup_executor.py:128-158 | Unless the run raises, what follows the loop ends with the failure summary when an error was recorded and with a success summary carrying the success count otherwise. |
| `BackupExecutor.FinalReport` | backup_executor.py:128-158 | The final section computes exactly the end of a run as specified by `Finish`. |
| `BackupExecutor.ExecuteMongodump` | backup_executor.py:10-160 | The method computes exactly the run `ExecuteSpec` describes: folder creation, start notice, loop, end, and the exception that leaves it. |
| `BackupExecutor.ExecuteSpec` | backup_executor.py:10-160 | Definition: the whole run; its properties are the `Run…`, `SummaryChoice`, `EscapeEndsRun` and worked-run lemmas below. |
| `BackupExecutor.RunStartsWithFolder` | backup_executor.py:30-33 | Every run's first effect is creating its output folder. |
| `BackupExecutor.RunEffectsInOrder` | backup_executor.py:33-158 | Folder first, then the start notice, then one notice per error block in order, then the summary unless the run raised. The launches are the dumps of the attempted collections in order, then the version probe iff there was no error and no exception left the loop. |
| `BackupExecutor.RunAttachments` | backup_executor.py:88-124 | Over a whole run, a message has an attachment exactly when it reports a failed dump; the attachment is that collection's error file, and the event just before it writes that file. |
| `BackupExecutor.LoopAttachments` | backup_executor.py:54-126 | The same holds for the effects of the loop alone. |
| `BackupExecutor.RunTallies` | backup_executor.py:49-137 | At most the configured collections are attempted. Successes plus blocks, plus one for an attempt that raised, equal the attempts; there are blocks iff an attempted dump failed. With no blocks and no exception, every configured collection was attempted and succeeded. |
| `BackupExecutor.LoopTallies` | backup_executor.py:49-126 | The same counts over any attempts, up to the loop's stopping point. |
| `BackupExecutor.SummaryChoice` | backup_executor.py:128-158 | When the run raises without an exception from the loop, no error was recorded. With errors, the last message is the failure summary of successes against the configured count, with all blocks. With none, unless the probe raises, it is a success summary counting every configured collection. |
| `BackupExecutor.RunReport` | backup_executor.py:128-158 | Without an exception from the loop, a run raises only with the probe's exception or, on exit 0 with no output, `IndexError`. A run with no error and no raise attempted every collection and ends with the success summary: every collection counted, `FolderSizeText` of the output tree, the first output line of the probe on exit 0 or `No disponible`, both free-space readings, and the loop's `collection_sizes` (`SizesAfter`, described by `LoopSizes`). |
| `BackupExecutor.EscapeEndsRun` | backup_executor.py:67-74 | An exception from a launch ends the run: it is the run's exception, the last effect is the launch that raised, and the messages are only the start notice and the error notices so far (no summary). |
| `BackupExecutor.RunSendsNoCritical` | backup_executor.py:10-160 | A run never sends a critical-error message itself. |
| `BackupExecutor.MiddleFailureExample` | backup_executor.py:81-111 | With A, B, C and only B exiting 1, all three are attempted; 2 succeed, with one connection/authentication block for B. |
| `BackupExecutor.MiddleFailureDumpsAll` | backup_executor.py:54-138 | With collections A, B, C and only B exiting 1, the run launches the dump commands of A, B and C in order and nothing else, does not raise, records one block (B's failed dump), and ends with the failure summary 2/3 listing it. |
| `BackupExecutor.FatalStopsExample` | backup_executor.py:113-126 | With A, B, C and B's executable missing, only A and B are attempted; one success and one fatal block. |
| `BackupExecutor.FatalStopsDumps` | backup_executor.py:113-126 | With collections A, B, C and B's executable missing, the run launches only A's and B's dump commands: C's is never launched, nor is the version probe. |
| `BackupExecutor.FatalStopsSummary` | backup_executor.py:113-138 | That run does not raise, records exactly the fatal block, and ends with the failure summary 1/3 listing it. |
| `BackupExecutor.EscapeStopsDumps` | backup_executor.py:67-74 | With A, B, C and B's launch raising an uncaught exception, the run launches only A's and B's commands, raises B's exception, and sends only the start notice. |
| `BackupMain.ParseTypeFlag` | main.py:24-30 | No flag is no override; `monthly`/`weekly` are those overrides; any other value is rejected. |
| `BackupMain.ParseKindName` | main.py:24-28 | Each kind's name parses back to it and is one of the two choices. |
| `BackupMain.Decide` | main.py:36-53 | Undefined (overflow) exactly on 9999-12-31. Monthly is due iff it is the last day of the month or `--type monthly`. Weekly is due iff today's weekday name equals the configured day (never if none is configured) or `--type weekly`. |
| `BackupMain.ScheduleExamples` | main.py:36-53 | An ordinary Wednesday with Sunday configured runs nothing; Feb 29 2024 runs monthly; a Sunday runs weekly; forcing weekly on Jan 31 runs both. |
| `BackupMain.Dispatch` | main.py:56-74 | Exit 0 or 1, and 1 iff a due run raised. Nothing due: no effect. A due monthly run's effects come first; if it raised, the outcome is its effects and one critical message, and the weekly run is not attempted. With only one run due, the outcome is that run's effects, plus one critical message if it raised: the run that is not due is never executed. |
| `BackupMain.DispatchCritical` | main.py:60-74 | For runs that send no critical message themselves, a critical message appears only on exit 1, exactly once, as the last effect, for the first exception. |
| `BackupMain.CriticalNotice` | main.py:65-72 | Definition: the handler's message, carrying `type(e).__name__` and `str(e)` of the exception, with no attachment; `CriticalOnlyOnFailure` states when it is sent. |
| `BackupMain.RunDue` | main.py:60-74 | The `try` block runs the due runs, monthly first. It stops at the first that raises, sends its critical message and returns 1; otherwise it returns 0. |
| `BackupMain.RunMain` | main.py:15-74 | `main` computes exactly the outcome `MainSpec` describes. |
| `BackupMain.MainSpec` | main.py:15-74 | The whole script: exit 2 iff the flag is rejected, with no effect; the date overflow gives exit 1 with no effect; otherwise `Dispatch` of the due runs. |
| `BackupMain.ExitStatus` | main.py:24-58 | The exit status is 0, 1 or 2. It is 2 iff the flag is rejected, with no effect. The date overflow gives 1 with no effect. Nothing due gives 0 with no effect. |
| `BackupMain.CriticalOnlyOnFailure` | main.py:60-74 | Exit 1 iff a due run raised. Then exactly one critical message, carrying the type name and text of the first exception, is the last effect. Exit 0 sends none. |
| `BackupMain.MonthlyBeforeWeekly` | main.py:60-64 | With both due, the monthly run's effects come first, starting with its folder. The weekly run follows, starting with its own folder, only if monthly did not raise, and then the whole trace is the monthly effects, the weekly effects and, if weekly raised, its critical message. If monthly raised, no weekly program is launched and the exit is 1. |

## Left out

- Telegram transport (`telegram_sender.py`) is not part of this model. A message is a
  `Notify` event with its optional attachment. Markdown escaping, the plain-text retry
  and a send that fails are not modelled.
- Configuration loading (`config_loader.py`) is not part of this model. The configuration
  is an immutable `Config` record, so the `KeyError` on a missing key and `sys.exit` on a
  bad file are not modelled. `WEEKLY_BACKUP_DAY` is optional, and a missing one is never
  equal to a weekday name.
- Message text is not modelled: emoji, Markdown, the Spanish wording, the `\n` layout, and
  the `.upper()` of the kind. Each message is a datatype with the values its text is built
  from.
- Floating-point rendering is not modelled: `:.2f`, `:3.1f`, and the MB/GB conversions.
  Free space and artifact sizes stay in bytes. The folder size's value is an exact real
  (the quotient by a power of 1024), not an IEEE double, and its decimal string is not
  produced.
- FormatSizeBounds: "below 1024" holds of the value before `:3.1f` rounds it, not of the
  printed text. Rounding can print `1024.0` under a unit below PB: 1048535 bytes is
  1023.96 KB and prints as `1024.0 KB`.
- os.walk's own handling of unreadable directories is not
  modelled. A folder that vanishes between the two calls is not modelled either. The walk
  is given as a list of directories and files.
- The weekday name is the C-locale English one. Other locales and `%Y` padding
  of years below 1000 on other platforms are not modelled.
- Logging, `async`/`await`, and the duration (`end_time - start_time`) are left out: they
  decide nothing. The start and end times are passed through as values.
- `subprocess.run`, `shutil.disk_usage`, `os.walk`, `os.path.exists`/`getsize`,
  `os.makedirs`, `datetime.now()` and `date.today()` become inputs, and the error files
  become `WriteFile` events. The monthly and weekly runs each read their own clock.
- An exception raised while sending a message is not modelled, nor in the handler's own
  message. Nor is a failed file write.

