# horuseye scan worker, modelled in Dafny

This project models the worker of the horuseye vulnerability scanner. The
worker receives a scan request: a target, a scan identifier, and a list of
tools with their command-line parameters. It handles each tool in turn:

- It looks up the tool's command builder in a case-insensitive registry.
- The builder turns the structured parameters into an argument vector for
  nuclei, nikto, sqlmap, trivy, lynis, wpscan, semgrep, trufflehog,
  gitleaks, yara or httpx. Some builders first clone a git repository.
- The executor runs the command, writes stdout and stderr into the tool's
  output directory, and lists the files there.
- A per-tool post-processor uploads selected artifacts to object storage,
  into an "llm" area and a "review" area. It deletes the output directory
  only when every upload it records succeeded.

The scan reports each tool's progress to a status callback. It aggregates
the tool outputs into a `ScanResponse` and saves that as the scan's final
results file.

## Modules

- `Wrappers` holds `Option` and `Result`.
- `Strings` holds the Python string behaviour the code relies on:
  - `lower`, `strip` and `startswith`;
  - `readlines` and the `[-2000:]` slice;
  - `shlex.quote` and `str` of an integer.
- `Models` holds the Pydantic records and the `target` validator.
- `Paths` holds `os.path.join`, `os.path.basename` and the two spellings of
  a tool's output directory.
- `FileSystem` holds the local disk as a value, the object store as an
  oracle, and `delete_local_directory`.
- `Builders` holds the shared parameter-emission loop, every `build_*`,
  `_clone_repo` and the dispatch from a registered builder to its command.
- `ReservedFlags` proves that nikto's and sqlmap's backend-managed flags
  occur exactly once in the commands they build.
- `PostProcessing` holds the post-processor registry (a class) and every
  processor, written as methods over the disk.
- `ToolRunning` holds the `ToolRunner` registry (a class) and
  `execute_command`.
- `Tasks` holds `execute_scan_logic`.

## Oracles for the outside world

The outside world enters as function-typed parameters:

| name | stands for |
|---|---|
| `Process` | `subprocess.run` |
| `Git` | the clone's `subprocess.run` |
| `Lister` | `os.listdir` |
| `Store` | whether `upload_file_to_gcs` succeeds for a readable file |
| `Sink` | the status callback; `Some(message)` when it raises |
| `dump` | `model_dump_json` |

## Behaviour worth knowing

1. **Empty scans.** A scan with no tools gets status `success`. Python's
   `all` is true for an empty list, and the aggregation checks it first.
2. **Cleanup on upload failure.** A failed upload does not always keep the
   directory. sqlmap's branch for a missing result directory deletes the
   directory unconditionally, and it ignores the result of its one upload.
3. **One tool can abort the scan.** When the "failed" status callback
   itself raises, the exception leaves the loop and aborts the whole scan,
   and that error is re-raised.
4. **Two entries for one tool.** When the "completed" callback raises, the
   tool's real output has already been appended. A worker-error entry
   follows it.
5. **An invalid target** is rejected before any tool runs, and the caller
   sees the failure.
6. **Failure scripts are not escaped.** A command that cannot be built is
   replaced by `sh -c "echo '<message>' >&2 && exit 1"`, with the message
   pasted between the single quotes as it is. A message holding a single
   quote ends the quoted word early, and the shell reads the rest of the
   message as shell syntax (`Builders.ErrorCommandQuoteClosesEarly`).
7. **Trivy needs a string image.** An `imageName` value that is truthy but
   not a string passes the emptiness check, and then the `' '.join` in the
   log line raises a `TypeError`. The scan records that as a worker error.
8. **nuclei's stderr.** The code comment on nuclei's stderr says the first
   12 lines are kept. The code drops them and keeps the rest, and the
   model does what the code does.

## Model

| member | source | states |
|---|---|---|
| Strings.Lower | app/tool_runner.py:43 | lower-casing keeps the length, leaves no ASCII capital letter, and changes no other character |
| Strings.LowerIdempotent | app/tool_runner.py:51 | lower-casing an already lower-cased name changes nothing, so registration and lookup agree |
| Strings.StripCharacterised | app/models.py:34-36 | `strip()` is empty exactly when every character is whitespace; otherwise it starts and ends with non-whitespace and is a contiguous slice of the input |
| Strings.StripIdempotent | app/models.py:36 | stripping twice equals stripping once |
| Strings.LinesShape | app/post_processing.py:66 | every line `readlines` yields is non-empty, and every line except the last ends with a newline |
| Strings.LinesConcat | app/post_processing.py:66-68 | joining the lines `readlines` yields gives back the whole text |
| Strings.TakeDropLines | app/post_processing.py:68 | the first n lines followed by the rest give back the text; the rest is a suffix of it, and it is empty when there are at most n lines |
| Strings.Tail | app/tool_runner.py:100-101 | `s[-2000:]` has length min(len(s), 2000) and is a suffix of `s` |
| Strings.ShellQuoteShape | app/tool_runner.py:514 | `shlex.quote` leaves a non-empty word of safe characters unchanged; it wraps any other word, the empty one included, in single quotes |
| Models.ValidateTarget | app/models.py:32-36 | a target is rejected with "Target cannot be empty" exactly when it is empty or all whitespace; an accepted target is the input with surrounding whitespace removed, non-empty and non-blank at both ends |
| Models.ValidateTargetIdempotent | app/models.py:32-36 | validating an accepted target again accepts it unchanged |
| Models.ParseScanRequest | app/models.py:24-36 | a request record is built exactly when the target validates; it carries the cleaned target and the tools and scan id as given |
| Paths.Basename | app/post_processing.py:32 | a basename contains no '/' and is a suffix of the path |
| Paths.BasenameOfJoin | app/post_processing.py:32 | the basename of a file joined onto the output directory is that file's name |
| Paths.OutputDirsAgree | app/tool_runner.py:62 | the executor's `os.path.join` directory and the builders' f-string directory coincide for non-empty, slash-free scan ids and tool names |
| FileSystem.Upload | app/gcs_utils.py:17-36 | an upload succeeds only if the local file exists; the contents sent are exactly the file's contents, and nothing is sent for a missing file |
| FileSystem.DeleteLocalDirectory | app/gcs_utils.py:38-47 | a path that is not a directory leaves the disk unchanged; otherwise the directory and everything under it is removed and every other file and directory is kept with its contents |
| FileSystem.DeleteLocalDirectoryIdempotent | app/gcs_utils.py:38-47 | deleting a directory a second time changes nothing |
| Builders.EmitParameters | app/tool_runner.py:202-216 | the parameter loop appends exactly the arguments the emission rule gives for the parameters, in order |
| Builders.EmitParameter | app/tool_runner.py:203-216 | one parameter contributes its flag and printed value, its bare flag, or nothing, as the rule says |
| Builders.ArgsForOrigin | app/tool_runner.py:202-216 | every emitted argument comes from a parameter that was not skipped: it is that parameter's flag, possibly renamed, or its printed value |
| Builders.FlagsOnlyArgs | app/tool_runner.py:433-438 | in switch-only mode every emitted argument is the flag of a parameter that takes no value and whose value is truthy |
| Builders.NeverEmitted | app/tool_runner.py:207-209 | a skipped flag that no renaming produces and no value prints as never appears among the emitted arguments |
| Builders.ErrorCommandIsFailureScript | app/tool_runner.py:28 | the synthetic failure command is `sh -c` with a script of the form `echo '…' >&2 && exit 1`, the message pasted between the quotes |
| Builders.ErrorCommandEchoesLiteral | app/tool_runner.py:26-28 | for a message without single quotes, the shell's quoted word is exactly the message, and what follows it is ` >&2 && exit 1`: the script echoes the message to stderr and exits with 1 |
| Builders.ErrorCommandQuoteClosesEarly | app/tool_runner.py:26-28 | for a message with a single quote, the shell's quoted word ends at the message's first quote, inside the message, so the rest of the message is read as shell syntax |
| Builders.FindParam | app/tool_runner.py:365 | the lookup finds nothing exactly when no parameter has the flag; otherwise it returns the first parameter with that flag |
| Builders.CloneRepo | app/tool_runner.py:12-30 | exactly one half of the pair is present: the source directory when git exits with 0, otherwise the failure script for "Failed to clone repository: " and git's stripped stderr; a git that cannot be started raises |
| Builders.PerTemplateShape | app/tool_runner.py:161-163 | each template path contributes the pair `-t`, path, in order |
| Builders.TemplatePathsEmptyIff | app/tool_runner.py:150-158 | no template path is collected exactly when every `-t` parameter has a falsy value |
| Builders.PerTemplateMembers | app/tool_runner.py:161-163 | a word appears in the template section exactly when it is one of the template paths |
| Builders.NucleiTemplates | app/tool_runner.py:131-165 | the nuclei command starts with its fixed 8-word base, then either the user's templates as `-t` pairs in order or exactly `-t /root/nuclei-templates`; the default directory appears among templates only if the user named it |
| Builders.CollectTemplates | app/tool_runner.py:146-158 | the partition loop collects exactly the template paths and exactly the non-template parameters |
| Builders.AddTemplates | app/tool_runner.py:161-165 | the template loop appends the template section to the command |
| Builders.BuildNuclei | app/tool_runner.py:125-183 | the built command is the nuclei command of the target, parameters and output file |
| Builders.BuildNikto | app/tool_runner.py:185-219 | the built command is nikto's fixed part followed by the emitted parameters, with `-h`, `-o` and `-Format` skipped |
| Builders.BuildSqlmap | app/tool_runner.py:221-250 | the built command is sqlmap's fixed part followed by the emitted parameters, with `-u`, `--output-dir` and `--batch` skipped |
| Builders.BuildTrivy | app/tool_runner.py:252-290 | the builder raises the missing-image error, raises the `TypeError` of the log line's join for a non-string image, or returns the trivy command, as the specification function gives |
| Builders.ImageNameIsLast | app/tool_runner.py:263-267 | the image name is the value of the last `imageName` parameter |
| Builders.ImageNameAbsent | app/tool_runner.py:263-267 | without an `imageName` parameter the image name is `None` |
| Builders.TrivyImageRequired | app/tool_runner.py:263-289 | trivy raises exactly when the image name is not a non-empty string: the missing-image error when it is falsy (always when `imageName` is absent), the join's `TypeError` when it is truthy but not a string; otherwise the command starts with the image-scan prefix and the image, and `imageName` never reappears as a flag |
| Builders.BuildLynis | app/tool_runner.py:293-322 | the built command is the system-audit command with its log and report files, then the emitted parameters |
| Builders.WpscanUrlNormalised | app/tool_runner.py:333-336 | the wpscan URL always has an http or https scheme, ignoring letter case; normalising is idempotent; a URL that already has a scheme is kept |
| Builders.BuildWpscan | app/tool_runner.py:324-358 | the built command is wpscan's fixed part with the normalised URL, then the emitted parameters |
| Builders.WpscanRenamesRandomAgent | app/tool_runner.py:347-349 | `--random-agent` never reaches the wpscan command; it is emitted as `--random-user-agent` |
| Builders.BuildSemgrep | app/tool_runner.py:360-414 | the built command is the semgrep command for the parameters and the clone outcome |
| Builders.BuildSemgrepScan | app/tool_runner.py:394-411 | the scan part of the command is built as the specification function gives |
| Builders.SemgrepScansOnlyClones | app/tool_runner.py:365-392 | a missing or non-string `gitURL` gives the missing-URL failure script; a successful clone gives the scan command; any failed or unstartable clone gives a script of the form `echo '…' >&2 && exit 1`, so semgrep never raises |
| Builders.SemgrepConfigDefault | app/tool_runner.py:394-411 | the scan command starts with the JSON report and checkout directory, and `--config auto` is added exactly when no `--config` parameter was given |
| Builders.BuildTrufflehog | app/tool_runner.py:416-441 | the builder returns the trufflehog command or raises, as the clone-based specification gives |
| Builders.BuildGitleaks | app/tool_runner.py:444-472 | the builder returns the gitleaks command or raises, as the clone-based specification gives |
| Builders.BuildYara | app/tool_runner.py:474-491 | the builder returns the yara command or raises, as the clone-based specification gives |
| Builders.CloneThenOutcomes | app/tool_runner.py:418-426 | a clone-based builder raises exactly when git cannot be started; a missing URL or a failed clone gives a script of the form `echo '…' >&2 && exit 1`; a successful clone scans the checkout directory |
| Builders.TrufflehogOnlySwitches | app/tool_runner.py:433-438 | each emitted trufflehog argument is the flag of a truthy value-less parameter other than `repoURL`, `--regex` and `--entropy` |
| Builders.HttpxUrlNormalised | app/tool_runner.py:509 | the httpx URL starts with `http://` or `https://`, and normalising is idempotent |
| Builders.BuildHttpx | app/tool_runner.py:493-517 | the result is `sh -c` with one script that pipes the shell-quoted target into httpx |
| Builders.HttpxScriptPipesTarget | app/tool_runner.py:514 | the httpx script begins by echoing the quoted target into `httpx` |
| Builders.BuildersRaiseOnlyWhen | app/tool_runner.py:271-289 | a builder raises exactly in these cases: trivy without an image that is a non-empty string, or a `_clone_repo` user whose git cannot be started; every other input yields a command |
| Builders.BuildCommand | tasks.py:38-44 | calling the registered builder gives what that builder's specification gives |
| ReservedFlags.NiktoReservedOnce | app/tool_runner.py:191-209 | `-h`, `-Format` and `-o` each occur exactly once in the nikto command when the target and no parameter value spell one of them |
| ReservedFlags.SqlmapReservedOnce | app/tool_runner.py:230-240 | `-u`, `--batch` and `--output-dir` each occur exactly once in the sqlmap command under the same condition |
| PostProcessing.PostProcessorRegistry.constructor | app/post_processing.py:8 | the registry starts empty |
| PostProcessing.PostProcessorRegistry.RegisterPostProcessor | app/post_processing.py:10-16 | registration stores the processor under the lower-cased name; lookups of every name with that lower-case form return it, and all other lookups are unchanged |
| PostProcessing.PostProcessorRegistry.RegisterBuiltins | app/post_processing.py:43-421 | importing the module registers the eleven tool-specific processors |
| PostProcessing.PostProcessorRegistry.GetPostProcessor | app/post_processing.py:18-22 | a registered name, in any letter case, gives its processor; any other name gives the default processor |
| PostProcessing.OksRecordsFailures | app/post_processing.py:88 | recording each upload's result records every failure, and `all(...)` holds exactly when every upload succeeded |
| PostProcessing.Settle | app/post_processing.py:38-41 | the directory is deleted exactly when every recorded result is true; otherwise the disk keeps all files |
| PostProcessing.BlockedCleanupKeepsFiles | app/post_processing.py:38-41 | when cleanup is skipped every file survives with its contents, apart from the derived files |
| PostProcessing.DefaultAttemptsExact | app/post_processing.py:30-36 | the default processor uploads each existing output file, and only those, to the review area under its basename |
| PostProcessing.DefaultCleanupCondition | app/post_processing.py:29-39 | the default processor cleans up exactly when every existing output file was stored |
| PostProcessing.UploadForReview | app/post_processing.py:29-36 | the upload loop performs exactly the default attempts, and its flag is true exactly when they all succeeded |
| PostProcessing.DefaultPostProcessor | app/post_processing.py:24-41 | the default processor uploads every existing file for review; it deletes the directory exactly when all of them were stored, and any failure blocks the deletion |
| PostProcessing.NucleiDigestDropsTwelveLines | app/post_processing.py:64-70 | the nuclei digest quotes all of stdout and the stderr left after its first 12 lines; that part is empty for a stderr of at most 12 lines |
| PostProcessing.PostProcessNuclei | app/post_processing.py:43-93 | nuclei writes the digest file and makes three uploads (digest to llm, stdout and stderr to review); it cleans up exactly when all three succeed |
| PostProcessing.NiktoCleanup | app/post_processing.py:109-139 | nikto's recorded results are all true exactly when stdout exists, both its uploads succeed, and the JSON file, when present, was stored |
| PostProcessing.PostProcessNikto | app/post_processing.py:95-139 | nikto uploads stdout to llm and review and the JSON to review if present; a missing stdout blocks cleanup, and a missing JSON does not |
| PostProcessing.FirstDir | app/post_processing.py:155-160 | the result is the first listed entry that is a directory, or none exactly when no listed entry is one |
| PostProcessing.FindResultDir | app/post_processing.py:155-160 | the listing loop stops at the first directory |
| PostProcessing.SqlmapWithoutResultDir | app/post_processing.py:162-167 | without a result directory, sqlmap uploads stdout for review as a failure record if it exists, and deletes the directory whatever the upload did |
| PostProcessing.SqlmapCleanup | app/post_processing.py:169-196 | sqlmap's recorded results are all true exactly when the log exists, both its uploads succeed, and stdout, when present, was stored |
| PostProcessing.SqlmapWithResultDir | app/post_processing.py:169-196 | with a result directory, sqlmap uploads the log to llm and review and stdout to review; it cleans up exactly under that condition |
| PostProcessing.PostProcessSqlmap | app/post_processing.py:141-196 | sqlmap picks the first listed directory and follows the matching branch; cleanup obeys the rule in both branches |
| PostProcessing.SingleUpload | app/post_processing.py:210-223 | one optional upload; the processor cleans up exactly when the file exists and was stored |
| PostProcessing.PostProcessTrivy | app/post_processing.py:198-223 | trivy uploads its JSON report for review and cleans up exactly when that upload happened and succeeded |
| PostProcessing.PostProcessLynis | app/post_processing.py:225-250 | lynis uploads stdout as the audit output for review and cleans up exactly when that upload happened and succeeded |
| PostProcessing.UploadToBothAreas | app/post_processing.py:252-418 | the wpscan, semgrep, trufflehog, gitleaks and yara processors upload one file to llm and review; a missing file records a failure, and cleanup happens exactly when the file exists and both uploads succeed |
| PostProcessing.UploadSummary | app/post_processing.py:437-456 | the llm summary is always the first 20 lines of stdout: a written summary file with at least 20 lines, stdout itself with fewer |
| PostProcessing.PostProcessHttpx | app/post_processing.py:420-470 | httpx makes no upload and records a failure when stdout is missing; otherwise it uploads the summary to llm and stdout to review, and cleans up exactly when both succeed |
| PostProcessing.RunPostProcessor | app/tool_runner.py:87-93 | whichever processor runs, cleanup follows the rule; every failed upload blocks it, except in sqlmap's branch without a result directory |
| ToolRunning.ToolRunner.constructor | app/tool_runner.py:37 | the builder registry starts empty |
| ToolRunning.ToolRunner.RegisterTool | app/tool_runner.py:40-46 | registration stores the builder under the lower-cased name, replacing any earlier builder; other names are unaffected |
| ToolRunning.ToolRunner.RegisterBuiltins | app/tool_runner.py:125-494 | importing the module registers the eleven builders |
| ToolRunning.ToolRunner.GetCommandBuilder | app/tool_runner.py:49-54 | the lookup succeeds exactly for registered names in any letter case; any other name fails with "Unsupported tool: " and the name as asked |
| ToolRunning.LookupIgnoresCase | app/tool_runner.py:49-54 | looking a name up and looking up its lower-cased form agree |
| ToolRunning.CollectOutputFilesShape | app/tool_runner.py:79-83 | the output list starts with stdout and stderr and repeats nothing; it adds only regular files named by the listing, and misses none of them |
| ToolRunning.ListOutputFiles | app/tool_runner.py:79-83 | the listdir loop builds exactly that list |
| ToolRunning.ExecuteCommand | app/tool_runner.py:57-123 | a completed run that left its output directory succeeds iff it exits with 0, reports tails of both streams and a file list holding the two stream files and then exactly the regular files directly inside the directory, and runs exactly one processor (the tool's own on success, the default one otherwise); a completed run that removed the directory reports -1 with the stdout write's `FileNotFoundError` and runs no processor; a timeout reports -1 with the timeout message as stderr and its only file; a launch failure reports -1 and runs no processor |
| ToolRunning.ListedRegularFiles | app/tool_runner.py:79-83 | with a listing of exactly the directory's children, the file list holds every regular file directly inside the directory, and everything after the two stream files is such a file |
| ToolRunning.CompletedRunOutputs | app/tool_runner.py:79-104 | a completed run's file list begins with stdout and stderr, has no duplicates, and holds every listed regular file; each reported stream is a suffix of at most 2000 characters |
| Tasks.FailedOutput | tasks.py:56-62 | a tool whose handling raised is reported with code -1, no command, no files, `success` false and a "Worker error running" message |
| Tasks.AggregateStatus | tasks.py:64-65 | `success` iff no tool failed; `failed` iff there were results and none succeeded; `partial_failure` iff some succeeded and some failed |
| Tasks.RunTool | tasks.py:33-62 | one tool aborts the scan exactly when its handler caught an error and then the "failed" callback raised; otherwise it contributes its executor report and/or a worker-error entry |
| Tasks.QuietToolOneEntry | tasks.py:34-62 | with callbacks that do not raise, each tool contributes exactly one entry, named after it |
| Tasks.QuietScanOneEntryPerTool | tasks.py:32-62 | with callbacks that never raise, no tool aborts the scan, and the results hold one entry per tool in request order |
| Tasks.AllHandled | tasks.py:32-62 | when every tool was handled, the concatenated entries are the scan's results |
| Tasks.AbortAfterHandled | tasks.py:55-60 | a tool that aborts after all earlier tools were handled is the first abort |
| Tasks.RunTools | tasks.py:31-62 | the tool loop aborts exactly when some tool aborts, with the first such tool's callback error; otherwise it returns every tool's entries in request order |
| Tasks.ExecuteScanLogic | tasks.py:22-91 | an invalid target fails before any tool runs; the scan fails exactly when a tool aborts it; otherwise it returns "complete" and saves the response (validated target, results in request order, aggregated status) as the final results file; with quiet callbacks it always completes with one entry per tool |

## Left out

- The celery wrapper in tasks.py lines 12-19, main.py, argo_run_scan.py and celery_app.py are not part of this model. They only call `execute_scan_logic` or configure queues.
- Logging is left out. Its only effect the model keeps is trivy's: the `' '.join` in its log line raises for a non-string image. Every other log line joins only strings: flags, `str` of values, the target and paths.
- Child processes, git, the directory listing, the object store, the status callback and JSON serialisation are oracles passed as parameters. The model proves what the worker does with their answers, not what they answer.
- The status callback is a pure function of tool name and status. A callback that keeps state between calls is not modelled.
- `Strings.Lower` lower-cases ASCII letters only. Python's `str.lower` also folds non-ASCII letters.
- `Models.Render` prints a list of strings with each element in single quotes. It omits the escaping Python's `repr` applies to quotes and backslashes inside the elements.
- Parameter values are None, booleans, integers, strings or lists of strings. Floats, dictionaries and nested lists are not modelled.
- `requiresValue` is a plain boolean. A missing value behaves as `False` everywhere in the builders, and the model relies on that.
- `os.path.exists` on an expected file is read as "is a regular file". A directory under a file's name counts as absent.
- Text decoding and newline translation on reads and writes are not modelled. Files hold the same strings the process produced.
- The builders' own `os.makedirs` calls and `_clone_repo`'s removal and re-creation of the source directory (app/tool_runner.py lines 16-19) are not applied to the disk. The clone's effect is decided by the git oracle.
- The disk after a timeout is whatever the process left. That it still holds the output directory is not assumed.
- ToolRunning.ExecuteCommand: after a timeout whose process removed the output directory, writing the timeout message raises out of `execute_command`, and the scan records a worker error for the tool. The model writes the file and runs the default processor, because a tool's fate in `Tasks` does not depend on the disk.
- The `Lister` oracle is required to behave like `os.listdir` (`ToolRunning.ListsDirectChildren`): it names every entry directly inside the directory, and nothing else, each as a single path component. The order of the names is left to the oracle.
- `ToolRunning.MissingFileError` quotes the path in single quotes. Python's `repr` switches to double quotes for a path holding a single quote.
- Builders.ErrorCommandEchoesLiteral: states the quoted word for quote-free messages only. Git's stderr quotes the repository URL in single quotes, so a failed clone's script usually splits into several words, and a URL can inject shell commands; `Builders.ErrorCommandQuoteClosesEarly` states where the quoted word ends then. What the shell does with the rest is not modelled.
- A post-processor that raises (for instance, a failed write of nuclei's digest file) would reach the executor's catch-all. Only a failure to launch the process reaches it in the model.
- A failed write of the final results file, and the scan-level exception it causes, are not modelled. The write always succeeds.
- The builders place reports under `/app/outputs/<scan>/<tool>`, and the executor looks in `os.path.join("/app", "outputs", scan, tool)`. These agree only for non-empty, slash-free identifiers, as `Paths.OutputDirsAgree` requires. The post-processors in the model use the executor's spelling.
- `ToolRunning.ToolRunner.RegisterBuiltins` and `PostProcessing.PostProcessorRegistry.RegisterBuiltins` store the built-in names directly. Each decorator's `lower()` leaves them unchanged.
- ToolRunning.ExecuteCommand: on success its contract states the processor chosen and the cleanup rule, not the processor's individual uploads. Those are in each processor's own contract.
- PostProcessing.RunPostProcessor: states the cleanup rule for every processor but the exact uploads only for the default one. It does not force `RecordsFailures` for sqlmap's branch without a result directory, because the source ignores that upload's result there.
- PostProcessing.PostProcessSqlmap: in the branch with a result directory it states the cleanup condition and `RecordsFailures`. The exact uploads are stated by `PostProcessing.SqlmapWithResultDir`.
- Tasks.RunTool: an entry produced by the executor is pinned down only by its tool name and command inside `Tasks.Handled`. The rest of that report is what `ToolRunning.ExecuteCommand` states.
- Tasks.RunTools: the same holds for every executor entry in the results.
- Tasks.ExecuteScanLogic: the same holds for every executor entry in the results.
- Builders.BuildersRaiseOnlyWhen: the error message of a git that cannot be started is the oracle's text. The exception type is not modelled.
