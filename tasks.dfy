/** `execute_scan_logic` of tasks.py: validate the scan request, run every
    requested tool in order through the builder registry and the executor,
    report each tool's progress through a status callback, aggregate the
    results into a `ScanResponse` and save it as the scan's final results
    file. */
module Tasks {
  import opened Wrappers
  import opened Strings
  import opened Models
  import opened Paths
  import opened FileSystem
  import opened Builders
  import opened PostProcessing
  import opened ToolRunning

  /** The status callback: `sink(toolName, status)` is `Some(message)` when
      the callback raises with that message, `None` when it returns. */
  type Sink = (string, string) -> Option<string>

  /** Everything outside the worker that a scan touches. */
  datatype World = World(git: Git, process: Process, lister: Lister, store: Store)

  /** What the worker returns once every tool has been handled. */
  datatype Completion = Completion(status: string, scanId: string)

  const CompletionMessage := "Scan completed by worker."

  function WorkerErrorMessage(toolName: string, error: string): string
  {
    "Worker error running '" + toolName + "': " + error
  }

  /** The entry recorded for a tool whose handling raised. */
  function FailedOutput(toolName: string, error: string): (out: ToolOutput)
    ensures out.toolName == toolName && !out.success && out.returnCode == -1
    ensures out.command == [] && out.outputFilePaths == [] && out.stdout == ""
    ensures StartsWith(out.stderr, "Worker error running '" + toolName + "': ")
  {
    ToolOutput(toolName, [], -1, "", WorkerErrorMessage(toolName, error), [], false)
  }

  function ResultDir(scanId: string): string
  {
    PathJoin(PathJoin("/app", "outputs"), scanId)
  }

  function ResultFile(scanId: string): string
  {
    PathJoin(ResultDir(scanId), "final_results.json")
  }

  // ---------------------------------------------------------------------
  // The overall status.
  // ---------------------------------------------------------------------

  /** `success` when no tool failed (so also for a scan with no tools),
      `failed` when there were results and none succeeded, and
      `partial_failure` when some succeeded and some failed. */
  function AggregateStatus(results: seq<ToolOutput>): (status: string)
    ensures status == "success" <==> forall i :: 0 <= i < |results| ==> results[i].success
    ensures status == "failed" <==> results != [] && forall i :: 0 <= i < |results| ==> !results[i].success
    ensures status == "partial_failure" <==>
      (exists i :: 0 <= i < |results| && results[i].success) && (exists j :: 0 <= j < |results| && !results[j].success)
  {
    if forall i :: 0 <= i < |results| ==> results[i].success then
      assert results == [] || results[0].success;
      "success"
    else if exists i :: 0 <= i < |results| && results[i].success then "partial_failure"
    else "failed"
  }

  // ---------------------------------------------------------------------
  // What happens to one tool.
  // ---------------------------------------------------------------------

  /** What a registered builder makes of a tool request. */
  type Build = (Builder, ToolExecutionRequest) -> Result<seq<string>>

  /** What the handling of each tool depends on: the registered builders,
      what they build, and the status callback. */
  datatype ScanContext = ScanContext(registry: map<string, Builder>, build: Build, sink: Sink)

  /** The context of one scan: each builder is called with the scan's
      target and identifier and the tool's own parameters and name. */
  function Context(registry: map<string, Builder>, git: Git, sink: Sink, target: string, scanId: string): ScanContext
  {
    ScanContext(registry, (b, tool: ToolExecutionRequest) => CommandFor(b, target, tool.parameters, scanId, tool.name, git), sink)
  }

  /** How far a tool gets before the executor: it is rejected (the
      "running" callback raised, the tool is unknown, or its builder
      raised), or it runs with the command its builder produced. */
  datatype Fate = Rejected(error: string) | Ran(command: seq<string>)

  function ToolFate(ctx: ScanContext, tool: ToolExecutionRequest): Fate
  {
    if ctx.sink(tool.name, "running").Some? then Rejected(ctx.sink(tool.name, "running").value)
    else if Lower(tool.name) !in ctx.registry then Rejected(UnsupportedTool(tool.name))
    else match ctx.build(ctx.registry[Lower(tool.name)], tool)
      case Failure(e) => Rejected(e)
      case Success(command) => Ran(command)
  }

  /** The error the handler catches for a tool, if any: the rejection, or
      the "completed" callback raising after the run. */
  function CaughtError(fate: Fate, sink: Sink, toolName: string): Option<string>
  {
    match fate
    case Rejected(e) => Some(e)
    case Ran(_) => sink(toolName, "completed")
  }

  /** The scan is aborted at this tool: its handler caught an error and
      then the "failed" callback raised too. */
  predicate Aborts(ctx: ScanContext, tool: ToolExecutionRequest)
  {
    CaughtError(ToolFate(ctx, tool), ctx.sink, tool.name).Some? && ctx.sink(tool.name, "failed").Some?
  }

  /** The entries one tool adds to the results: the executor's report when
      it ran, followed by a worker-error entry when its handler caught an
      error. */
  predicate ToolEntries(fate: Fate, sink: Sink, toolName: string, entries: seq<ToolOutput>)
  {
    var tail := match CaughtError(fate, sink, toolName)
      case None => []
      case Some(e) => [FailedOutput(toolName, e)];
    match fate
    case Rejected(_) => entries == tail
    case Ran(command) =>
      |entries| >= 1 && entries[0].toolName == toolName && entries[0].command == command && entries[1..] == tail
  }

  /** Tool `tool` was handled without aborting the scan and contributed
      `entries`. */
  predicate Handled(ctx: ScanContext, tool: ToolExecutionRequest, entries: seq<ToolOutput>)
  {
    !Aborts(ctx, tool) && ToolEntries(ToolFate(ctx, tool), ctx.sink, tool.name, entries)
  }

  /** The body of the loop for one tool, with its try/except. */
  method RunTool(runner: ToolRunner, processors: PostProcessorRegistry, world: World, sink: Sink,
                 target: string, scanId: string, tool: ToolExecutionRequest, disk: Disk)
    returns (entries: seq<ToolOutput>, raised: Option<string>, disk': Disk)
    requires ListsDirectChildren(world.lister)
    ensures raised.Some? <==> Aborts(Context(runner.registry, world.git, sink, target, scanId), tool)
    ensures raised.Some? ==> raised == sink(tool.name, "failed")
    ensures raised.None? ==> Handled(Context(runner.registry, world.git, sink, target, scanId), tool, entries)
  {
    var name := tool.name;
    var error: Option<string> := None;
    entries := [];
    disk' := disk;
    var running := sink(name, "running");
    if running.Some? {
      error := running;
    } else {
      var builder := runner.GetCommandBuilder(name);
      if builder.Failure? {
        error := Some(builder.error);
      } else {
        var command := BuildCommand(builder.value, target, tool.parameters, scanId, name, world.git);
        if command.Failure? {
          error := Some(command.error);
        } else {
          var out, _, after := ExecuteCommand(command.value, scanId, name, DefaultTimeout,
                                              world.process, world.lister, world.store, disk, processors);
          disk' := after;
          entries := [out];
          var completed := sink(name, "completed");
          if completed.Some? {
            error := completed;
          }
        }
      }
    }
    raised := None;
    if error.Some? {
      var failed := sink(name, "failed");
      if failed.Some? {
        raised := failed;
        return;
      }
      entries := entries + [FailedOutput(name, error.value)];
    }
  }

  // ---------------------------------------------------------------------
  // The whole scan.
  // ---------------------------------------------------------------------

  /** The results list as the concatenation of each tool's entries. */
  function Flatten(groups: seq<seq<ToolOutput>>): seq<ToolOutput>
  {
    if groups == [] then [] else Flatten(groups[..|groups| - 1]) + groups[|groups| - 1]
  }

  /** When every tool contributes exactly one entry, the results line up
      with the tools one for one. */
  lemma {:induction false} FlattenSingletons(groups: seq<seq<ToolOutput>>)
    requires forall i :: 0 <= i < |groups| ==> |groups[i]| == 1
    ensures |Flatten(groups)| == |groups|
    ensures forall i :: 0 <= i < |groups| ==> Flatten(groups)[i] == groups[i][0]
  {
    if groups != [] {
      var init := groups[..|groups| - 1];
      FlattenSingletons(init);
      forall i | 0 <= i < |groups|
        ensures Flatten(groups)[i] == groups[i][0]
      {
        if i < |init| {
          assert groups[i] == init[i];
        }
      }
    }
  }

  /** `results` splits into `groups`, one per tool, each holding what that
      tool contributes. */
  predicate Grouped(ctx: ScanContext, tools: seq<ToolExecutionRequest>, results: seq<ToolOutput>, groups: seq<seq<ToolOutput>>)
  {
    && |groups| == |tools|
    && results == Flatten(groups)
    && forall i :: 0 <= i < |tools| ==> ToolEntries(ToolFate(ctx, tools[i]), ctx.sink, tools[i].name, groups[i])
  }

  /** The results of a scan that was not aborted: the concatenation of
      each tool's entries, in request order. */
  ghost predicate ResultsFor(ctx: ScanContext, tools: seq<ToolExecutionRequest>, results: seq<ToolOutput>)
  {
    exists groups: seq<seq<ToolOutput>> :: Grouped(ctx, tools, results, groups)
  }

  /** Tool `i` is the first one at which the scan is aborted. */
  predicate FirstAbort(ctx: ScanContext, tools: seq<ToolExecutionRequest>, i: int)
  {
    0 <= i < |tools| && Aborts(ctx, tools[i]) && forall j :: 0 <= j < i ==> !Aborts(ctx, tools[j])
  }

  predicate AnyAborts(ctx: ScanContext, tools: seq<ToolExecutionRequest>)
  {
    exists i :: 0 <= i < |tools| && Aborts(ctx, tools[i])
  }

  /** A callback that never raises for this tool. */
  predicate QuietFor(sink: Sink, toolName: string)
  {
    sink(toolName, "running").None? && sink(toolName, "completed").None? && sink(toolName, "failed").None?
  }

  /** Under callbacks that raise nothing, a tool contributes one entry,
      named after it, whatever its fate. */
  lemma QuietToolOneEntry(fate: Fate, sink: Sink, toolName: string, entries: seq<ToolOutput>)
    requires sink(toolName, "completed").None?
    requires ToolEntries(fate, sink, toolName, entries)
    ensures |entries| == 1 && entries[0].toolName == toolName
  {
    if fate.Ran? {
      assert entries[1..] == [];
    }
  }

  /** A scan whose callbacks never raise: no tool aborts it, and each tool
      contributes exactly one entry, in request order. */
  lemma QuietScanOneEntryPerTool(ctx: ScanContext, tools: seq<ToolExecutionRequest>, results: seq<ToolOutput>)
    requires forall i :: 0 <= i < |tools| ==> QuietFor(ctx.sink, tools[i].name)
    ensures !AnyAborts(ctx, tools)
    ensures ResultsFor(ctx, tools, results) ==>
      |results| == |tools| && forall i :: 0 <= i < |tools| ==> results[i].toolName == tools[i].name
  {
    if ResultsFor(ctx, tools, results) {
      var groups: seq<seq<ToolOutput>> :| Grouped(ctx, tools, results, groups);
      forall i | 0 <= i < |tools|
        ensures |groups[i]| == 1 && groups[i][0].toolName == tools[i].name
      {
        QuietToolOneEntry(ToolFate(ctx, tools[i]), ctx.sink, tools[i].name, groups[i]);
      }
      FlattenSingletons(groups);
    }
  }

  /** Every tool handled: nothing aborted, and the flattened entries are
      the scan's results. */
  lemma AllHandled(ctx: ScanContext, tools: seq<ToolExecutionRequest>, groups: seq<seq<ToolOutput>>)
    requires |groups| == |tools|
    requires forall k :: 0 <= k < |tools| ==> Handled(ctx, tools[k], groups[k])
    ensures !AnyAborts(ctx, tools)
    ensures ResultsFor(ctx, tools, Flatten(groups))
  {
    assert Grouped(ctx, tools, Flatten(groups), groups);
  }

  /** One more handled tool extends the handled prefix. */
  lemma HandledSnoc(ctx: ScanContext, tools: seq<ToolExecutionRequest>, groups: seq<seq<ToolOutput>>, entries: seq<ToolOutput>)
    requires |groups| < |tools|
    requires forall k :: 0 <= k < |groups| ==> Handled(ctx, tools[k], groups[k])
    requires Handled(ctx, tools[|groups|], entries)
    ensures forall k :: 0 <= k <= |groups| ==> Handled(ctx, tools[k], (groups + [entries])[k])
  {
    forall k | 0 <= k <= |groups|
      ensures Handled(ctx, tools[k], (groups + [entries])[k])
    {
      if k < |groups| {
        assert (groups + [entries])[k] == groups[k];
      }
    }
  }

  lemma FlattenSnoc(groups: seq<seq<ToolOutput>>, entries: seq<ToolOutput>)
    ensures Flatten(groups + [entries]) == Flatten(groups) + entries
  {
    assert (groups + [entries])[..|groups|] == groups;
  }

  /** The first tool that aborts, after a run of handled ones. */
  lemma AbortAfterHandled(ctx: ScanContext, tools: seq<ToolExecutionRequest>, groups: seq<seq<ToolOutput>>, i: int)
    requires 0 <= i < |tools| && |groups| == i
    requires forall k :: 0 <= k < i ==> Handled(ctx, tools[k], groups[k])
    requires Aborts(ctx, tools[i])
    ensures FirstAbort(ctx, tools, i)
    ensures AnyAborts(ctx, tools)
  {
  }

  /** The loop over the requested tools. */
  method RunTools(runner: ToolRunner, processors: PostProcessorRegistry, world: World, sink: Sink,
                  target: string, scanId: string, tools: seq<ToolExecutionRequest>, disk: Disk)
    returns (results: seq<ToolOutput>, raised: Option<string>, disk': Disk)
    requires ListsDirectChildren(world.lister)
    ensures raised.Some? <==> AnyAborts(Context(runner.registry, world.git, sink, target, scanId), tools)
    ensures raised.Some? ==>
      exists i :: FirstAbort(Context(runner.registry, world.git, sink, target, scanId), tools, i) && raised == sink(tools[i].name, "failed")
    ensures raised.None? ==> ResultsFor(Context(runner.registry, world.git, sink, target, scanId), tools, results)
  {
    var ctx := Context(runner.registry, world.git, sink, target, scanId);
    results := [];
    ghost var groups: seq<seq<ToolOutput>> := [];
    disk' := disk;
    for i := 0 to |tools|
      invariant |groups| == i
      invariant results == Flatten(groups)
      invariant forall k :: 0 <= k < i ==> Handled(ctx, tools[k], groups[k])
    {
      var entries, stop, after := RunTool(runner, processors, world, sink, target, scanId, tools[i], disk');
      disk' := after;
      if stop.Some? {
        AbortAfterHandled(ctx, tools, groups, i);
        return results, stop, disk';
      }
      HandledSnoc(ctx, tools, groups, entries);
      FlattenSnoc(groups, entries);
      groups := groups + [entries];
      results := results + entries;
    }
    AllHandled(ctx, tools, groups);
    raised := None;
  }

  method ExecuteScanLogic(runner: ToolRunner, processors: PostProcessorRegistry, world: World, sink: Sink,
                          dump: ScanResponse -> string,
                          target: string, tools: seq<ToolExecutionRequest>, scanId: string, disk: Disk)
    returns (r: Result<Completion>, response: Option<ScanResponse>, disk': Disk)
    requires ListsDirectChildren(world.lister)
    // An invalid target fails before any tool runs.
    ensures ValidateTarget(target).Failure? ==> r == Failure(EmptyTargetMessage) && response.None? && disk' == disk
    // The scan is aborted exactly when some tool's "failed" callback
    // raises, with the first such tool's error.
    ensures ValidateTarget(target).Success? ==>
      (r.Failure? <==> AnyAborts(Context(runner.registry, world.git, sink, ValidateTarget(target).value, scanId), tools))
    ensures ValidateTarget(target).Success? && r.Failure? ==>
      exists i :: (FirstAbort(Context(runner.registry, world.git, sink, ValidateTarget(target).value, scanId), tools, i)
        && r == Failure(sink(tools[i].name, "failed").value))
    // Otherwise every tool's entries appear in request order, the status
    // summarises them, and the response is saved.
    ensures r.Success? ==>
      && ValidateTarget(target).Success?
      && r.value == Completion("complete", scanId)
      && response.Some?
      && response.value == ScanResponse(scanId, ValidateTarget(target).value, None,
                                        response.value.results, CompletionMessage, AggregateStatus(response.value.results))
      && ResultsFor(Context(runner.registry, world.git, sink, ValidateTarget(target).value, scanId), tools, response.value.results)
      && ResultDir(scanId) in disk'.dirs
      && ResultFile(scanId) in disk'.files && disk'.files[ResultFile(scanId)] == dump(response.value)
    // With callbacks that never raise, a valid scan completes with one
    // entry per tool.
    ensures ValidateTarget(target).Success? && (forall i :: 0 <= i < |tools| ==> QuietFor(sink, tools[i].name)) ==>
      && r.Success? && response.Some?
      && |response.value.results| == |tools|
      && forall i :: 0 <= i < |tools| ==> response.value.results[i].toolName == tools[i].name
  {
    var parsed := ParseScanRequest(target, tools, scanId);
    if parsed.Failure? {
      return Failure(parsed.error), None, disk;
    }
    var request := parsed.value;
    var results, raised;
    results, raised, disk' := RunTools(runner, processors, world, sink, request.target, request.scanId, request.tools, disk);
    if forall k :: 0 <= k < |tools| ==> QuietFor(sink, tools[k].name) {
      QuietScanOneEntryPerTool(Context(runner.registry, world.git, sink, request.target, scanId), tools, results);
    }
    if raised.Some? {
      return Failure(raised.value), None, disk';
    }
    var status := AggregateStatus(results);
    var final := ScanResponse(request.scanId, request.target, None, results, CompletionMessage, status);
    disk' := MakeDirs(disk', ResultDir(request.scanId));
    disk' := WriteFile(disk', ResultFile(request.scanId), dump(final));
    r := Success(Completion("complete", request.scanId));
    response := Some(final);
  }
}
