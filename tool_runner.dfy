/** `ToolRunner` of app/tool_runner.py: the case-insensitive registry of
    command builders and `execute_command`, which runs a built command,
    writes its streams into the tool's output directory, lists the files
    there, hands them to a post-processor and reports a `ToolOutput`. */
module ToolRunning {
  import opened Wrappers
  import opened Strings
  import opened Models
  import opened Paths
  import opened FileSystem
  import opened Builders
  import opened PostProcessing

  // ---------------------------------------------------------------------
  // The builder registry.
  // ---------------------------------------------------------------------

  /** The builders registered at import time, under their lower-case tool
      names. */
  const BuiltinBuilders: map<string, Builder> := map[
    "nuclei" := Nuclei, "nikto" := Nikto, "sqlmap" := Sqlmap, "trivy" := Trivy, "lynis" := Lynis,
    "wpscan" := Wpscan, "semgrep" := Semgrep, "trufflehog" := Trufflehog, "gitleaks" := Gitleaks,
    "yara" := Yara, "httpx" := Httpx]

  function UnsupportedTool(toolName: string): string
  {
    "Unsupported tool: " + toolName
  }

  /** `ToolRunner._tool_registry` with `register_tool` and
      `get_command_builder`. */
  class ToolRunner {
    var registry: map<string, Builder>

    constructor ()
      ensures registry == map[]
    {
      registry := map[];
    }

    /** The registration decorator: the name is stored lower-cased; a later
        registration under the same name replaces the earlier one. */
    method RegisterTool(toolName: string, b: Builder)
      modifies this
      ensures registry == old(registry)[Lower(toolName) := b]
      ensures forall name :: Lower(name) == Lower(toolName) ==> GetCommandBuilder(name) == Success(b)
      ensures forall name :: Lower(name) != Lower(toolName) ==> GetCommandBuilder(name) == old(GetCommandBuilder(name))
    {
      registry := registry[Lower(toolName) := b];
    }

    /** What importing the module registers; the built-in names are already
        lower-case, so each decorator stores its name as written. */
    method RegisterBuiltins()
      modifies this
      ensures registry == old(registry) + BuiltinBuilders
    {
      registry := registry + BuiltinBuilders;
    }

    /** The lookup lower-cases the query, so it ignores letter case; a name
        nobody registered is an error naming the tool as it was asked
        for. */
    function GetCommandBuilder(toolName: string): (r: Result<Builder>)
      reads this
      ensures r.Success? <==> Lower(toolName) in registry
      ensures r.Success? ==> r.value == registry[Lower(toolName)]
      ensures r.Failure? ==> r.error == UnsupportedTool(toolName)
    {
      if Lower(toolName) in registry then Success(registry[Lower(toolName)]) else Failure(UnsupportedTool(toolName))
    }
  }

  /** Looking a tool up under a name and under its lower-cased form gives
      the same answer whenever the name is known. */
  lemma LookupIgnoresCase(runner: ToolRunner, toolName: string)
    ensures runner.GetCommandBuilder(toolName).Success? <==> runner.GetCommandBuilder(Lower(toolName)).Success?
    ensures runner.GetCommandBuilder(toolName).Success? ==>
      runner.GetCommandBuilder(toolName) == runner.GetCommandBuilder(Lower(toolName))
  {
    LowerIdempotent(toolName);
  }

  // ---------------------------------------------------------------------
  // The child process.
  // ---------------------------------------------------------------------

  /** What running a command did: it completed with an exit code, its two
      streams and the disk as it left it; it ran past the timeout and was
      killed, leaving the disk in some state; or it could not be run at
      all (the executable is missing, say), with the exception's text. */
  datatype RunOutcome =
    | Completed(returnCode: int, stdout: string, stderr: string, after: Disk)
    | TimedOut(left: Disk)
    | LaunchError(message: string)

  /** `subprocess.run` as an oracle: the outcome of running a command on a
      disk, within a timeout. */
  type Process = (seq<string>, Disk, int) -> RunOutcome

  /** `os.listdir` as an oracle: the entry names of a directory, in the
      order the operating system returns them. */
  type Lister = (string, Disk) -> seq<string>

  /** A name `os.listdir` can return: one path component. */
  predicate ChildName(name: string)
  {
    name != [] && NoSlash(name) && name != "." && name != ".."
  }

  /** `listing` names exactly the entries directly inside `dir`: each
      listed name is one component that joins onto `dir` to give a file or
      a directory, and every such component is listed. */
  ghost predicate ListsChildren(listing: seq<string>, dir: string, disk: Disk)
  {
    && (forall j :: 0 <= j < |listing| ==>
          ChildName(listing[j]) && (PathJoin(dir, listing[j]) in disk.files || PathJoin(dir, listing[j]) in disk.dirs))
    && (forall name :: ChildName(name) && (PathJoin(dir, name) in disk.files || PathJoin(dir, name) in disk.dirs) ==>
          name in listing)
  }

  /** What the model asks of the directory-listing oracle: it behaves like
      `os.listdir` on every directory of every disk. */
  ghost predicate ListsDirectChildren(lister: Lister)
  {
    forall dir, disk :: ListsChildren(lister(dir, disk), dir, disk)
  }

  const DefaultTimeout := 3600

  // ---------------------------------------------------------------------
  // The output-file list.
  // ---------------------------------------------------------------------

  predicate NoDuplicates(s: seq<string>)
  {
    forall i, j :: 0 <= i < j < |s| ==> s[i] != s[j]
  }

  /** The list the listdir loop builds: `base`, then each listed entry that
      is a regular file and not already in the list. */
  function CollectOutputFiles(disk: Disk, dir: string, base: seq<string>, listing: seq<string>): seq<string>
  {
    if listing == [] then base
    else
      var prev := CollectOutputFiles(disk, dir, base, listing[..|listing| - 1]);
      var fullPath := PathJoin(dir, listing[|listing| - 1]);
      if fullPath in disk.files && fullPath !in prev then prev + [fullPath] else prev
  }

  /** The output-file list keeps `base` in front, repeats nothing (when
      `base` does not), adds only regular files named by the listing, and
      misses none of them. */
  lemma {:induction false} CollectOutputFilesShape(disk: Disk, dir: string, base: seq<string>, listing: seq<string>)
    ensures |CollectOutputFiles(disk, dir, base, listing)| >= |base|
    ensures CollectOutputFiles(disk, dir, base, listing)[..|base|] == base
    ensures NoDuplicates(base) ==> NoDuplicates(CollectOutputFiles(disk, dir, base, listing))
    ensures forall k :: |base| <= k < |CollectOutputFiles(disk, dir, base, listing)| ==>
      var f := CollectOutputFiles(disk, dir, base, listing)[k];
      f in disk.files && exists j :: 0 <= j < |listing| && f == PathJoin(dir, listing[j])
    ensures forall j :: 0 <= j < |listing| && PathJoin(dir, listing[j]) in disk.files ==>
      PathJoin(dir, listing[j]) in CollectOutputFiles(disk, dir, base, listing)
  {
    if listing != [] {
      var init := listing[..|listing| - 1];
      CollectOutputFilesShape(disk, dir, base, init);
      var prev := CollectOutputFiles(disk, dir, base, init);
      var r := CollectOutputFiles(disk, dir, base, listing);
      assert prev[..|base|] == base;
      if r != prev {
        assert r[..|base|] == prev[..|base|];
      }
      forall k | |base| <= k < |r|
        ensures r[k] in disk.files && exists j :: 0 <= j < |listing| && r[k] == PathJoin(dir, listing[j])
      {
        if k < |prev| {
          var j :| 0 <= j < |init| && prev[k] == PathJoin(dir, init[j]);
          assert listing[j] == init[j];
        } else {
          assert r[k] == PathJoin(dir, listing[|listing| - 1]);
        }
      }
      forall j | 0 <= j < |listing| && PathJoin(dir, listing[j]) in disk.files
        ensures PathJoin(dir, listing[j]) in r
      {
        if j < |init| {
          assert listing[j] == init[j];
        }
      }
    }
  }

  /** The listdir loop of `execute_command`. */
  method ListOutputFiles(disk: Disk, dir: string, base: seq<string>, listing: seq<string>) returns (outputFiles: seq<string>)
    ensures outputFiles == CollectOutputFiles(disk, dir, base, listing)
  {
    outputFiles := base;
    for i := 0 to |listing|
      invariant outputFiles == CollectOutputFiles(disk, dir, base, listing[..i])
    {
      var fullPath := PathJoin(dir, listing[i]);
      if fullPath in disk.files && fullPath !in outputFiles {
        outputFiles := outputFiles + [fullPath];
      }
      assert listing[..i + 1][..i] == listing[..i];
    }
    assert listing[..|listing|] == listing;
  }

  // ---------------------------------------------------------------------
  // execute_command
  // ---------------------------------------------------------------------

  /** The post-processor that ran and what it did. */
  datatype Invocation = Invocation(processor: Processor, run: PostRun)

  const TailLength := 2000

  function TimeoutMessage(timeout: int): string
  {
    "Command timed out after " + IntToString(timeout) + " seconds."
  }

  function UnexpectedErrorMessage(message: string): string
  {
    "An unexpected error occurred: " + message
  }

  /** The text of the `FileNotFoundError` that `open(path, 'w')` raises
      when the file's directory is gone. */
  function MissingFileError(path: string): string
  {
    "[Errno 2] No such file or directory: '" + path + "'"
  }

  /** The disk once a completed run's two streams have been written. */
  function WithStreams(after: Disk, dir: string, stdout: string, stderr: string): Disk
  {
    WriteFile(WriteFile(after, StdoutFile(dir), stdout), StderrFile(dir), stderr)
  }

  method ExecuteCommand(command: seq<string>, scanId: string, toolName: string, timeout: int,
                        process: Process, lister: Lister, store: Store, disk: Disk, processors: PostProcessorRegistry)
    returns (out: ToolOutput, post: Option<Invocation>, disk': Disk)
    requires ListsDirectChildren(lister)
    ensures out.toolName == toolName && out.command == command
    // A completed run: success is exit status 0, the streams are cut to
    // their last 2000 characters, and exactly one processor runs: the
    // tool's own on success, the default one otherwise.
    ensures var dir := OutputDir(scanId, toolName);
      var result := process(command, MakeDirs(disk, dir), timeout);
      result.Completed? && dir in result.after.dirs ==>
      var written := WithStreams(result.after, dir, result.stdout, result.stderr);
      var files := CollectOutputFiles(written, dir, [StdoutFile(dir), StderrFile(dir)], lister(dir, written));
      && out == ToolOutput(toolName, command, result.returnCode, Tail(result.stdout, TailLength), Tail(result.stderr, TailLength),
                           files, result.returnCode == 0)
      && post.Some?
      && post.value.processor == (if result.returnCode == 0 then processors.GetPostProcessor(toolName) else DefaultProcessor)
      && (result.returnCode != 0 ==> post.value.run.attempts == DefaultAttempts(written, store, scanId, toolName, files))
      && Settled(post.value.run, written, disk', dir)
    // ... and the output-file list names the two stream files and then
    // exactly the regular files directly inside the output directory.
    ensures var dir := OutputDir(scanId, toolName);
      var result := process(command, MakeDirs(disk, dir), timeout);
      result.Completed? && dir in result.after.dirs ==>
      var written := WithStreams(result.after, dir, result.stdout, result.stderr);
      && |out.outputFilePaths| >= 2
      && out.outputFilePaths[0] == StdoutFile(dir) && out.outputFilePaths[1] == StderrFile(dir)
      && (forall name :: ChildName(name) && PathJoin(dir, name) in written.files ==> PathJoin(dir, name) in out.outputFilePaths)
      && (forall k :: 2 <= k < |out.outputFilePaths| ==>
            out.outputFilePaths[k] in written.files &&
            exists name :: ChildName(name) && out.outputFilePaths[k] == PathJoin(dir, name))
    // A completed run whose process removed the output directory: writing
    // stdout fails, and the catch-all reports the error with no files and
    // no processor.
    ensures var dir := OutputDir(scanId, toolName);
      var result := process(command, MakeDirs(disk, dir), timeout);
      result.Completed? && dir !in result.after.dirs ==>
      && out == ToolOutput(toolName, command, -1, "", UnexpectedErrorMessage(MissingFileError(StdoutFile(dir))), [], false)
      && post.None?
      && disk' == result.after
    // A timeout: exit code -1, the timeout message as stderr and as the
    // only output file, which the default processor handles.
    ensures process(command, MakeDirs(disk, OutputDir(scanId, toolName)), timeout).TimedOut? ==>
      var dir := OutputDir(scanId, toolName);
      var result := process(command, MakeDirs(disk, dir), timeout);
      var written := WriteFile(result.left, StderrFile(dir), TimeoutMessage(timeout));
      && out == ToolOutput(toolName, command, -1, "", TimeoutMessage(timeout), [StderrFile(dir)], false)
      && post.Some? && post.value.processor == DefaultProcessor
      && post.value.run.attempts == DefaultAttempts(written, store, scanId, toolName, [StderrFile(dir)])
      && Settled(post.value.run, written, disk', dir)
    // A command that could not be run: exit code -1, no files, and no
    // processor at all.
    ensures process(command, MakeDirs(disk, OutputDir(scanId, toolName)), timeout).LaunchError? ==>
      var result := process(command, MakeDirs(disk, OutputDir(scanId, toolName)), timeout);
      && out == ToolOutput(toolName, command, -1, "", UnexpectedErrorMessage(result.message), [], false)
      && post.None?
      && disk' == MakeDirs(disk, OutputDir(scanId, toolName))
  {
    var outputDir := OutputDir(scanId, toolName);
    var prepared := MakeDirs(disk, outputDir);
    var stdoutFile := StdoutFile(outputDir);
    var stderrFile := StderrFile(outputDir);

    var result := process(command, prepared, timeout);
    match result {
      case Completed(returnCode, stdout, stderr, after) =>
        if outputDir !in after.dirs {
          out := ToolOutput(toolName, command, -1, "", UnexpectedErrorMessage(MissingFileError(stdoutFile)), [], false);
          post := None;
          disk' := after;
          return;
        }
        var written := WriteFile(after, stdoutFile, stdout);
        written := WriteFile(written, stderrFile, stderr);
        var outputFiles := ListOutputFiles(written, outputDir, [stdoutFile, stderrFile], lister(outputDir, written));
        ListedRegularFiles(scanId, toolName, written, lister(outputDir, written));
        var success := returnCode == 0;
        var processor, run;
        if success {
          processor := processors.GetPostProcessor(toolName);
          run, disk' := RunPostProcessor(processor, written, store, lister(outputDir, written), scanId, toolName, outputDir, outputFiles);
        } else {
          processor := DefaultProcessor;
          run, disk' := DefaultPostProcessor(written, store, scanId, toolName, outputDir, outputFiles);
        }
        post := Some(Invocation(processor, run));
        out := ToolOutput(toolName, command, returnCode, Tail(stdout, TailLength), Tail(stderr, TailLength), outputFiles, success);
      case TimedOut(left) =>
        var errorMsg := TimeoutMessage(timeout);
        var written := WriteFile(left, stderrFile, errorMsg);
        var run;
        run, disk' := DefaultPostProcessor(written, store, scanId, toolName, outputDir, [stderrFile]);
        post := Some(Invocation(DefaultProcessor, run));
        out := ToolOutput(toolName, command, -1, "", errorMsg, [stderrFile], false);
      case LaunchError(message) =>
        out := ToolOutput(toolName, command, -1, "", UnexpectedErrorMessage(message), [], false);
        post := None;
        disk' := prepared;
    }
  }

  /** On a completed run the output-file list starts with the two stream
      files, repeats nothing, and holds every regular file the directory
      listing names; stdout and stderr in the report are suffixes of the
      captured streams, at most 2000 characters long. */
  lemma CompletedRunOutputs(scanId: string, toolName: string, written: Disk, listing: seq<string>, stdout: string, stderr: string)
    ensures var dir := OutputDir(scanId, toolName);
      var files := CollectOutputFiles(written, dir, [StdoutFile(dir), StderrFile(dir)], listing);
      && |files| >= 2 && files[0] == StdoutFile(dir) && files[1] == StderrFile(dir)
      && NoDuplicates(files)
      && (forall j :: 0 <= j < |listing| && PathJoin(dir, listing[j]) in written.files ==> PathJoin(dir, listing[j]) in files)
    ensures EndsWith(stdout, Tail(stdout, TailLength)) && |Tail(stdout, TailLength)| <= TailLength
    ensures EndsWith(stderr, Tail(stderr, TailLength)) && |Tail(stderr, TailLength)| <= TailLength
  {
    var dir := OutputDir(scanId, toolName);
    DistinctInDir(dir, "output.stdout", "output.stderr");
    var base := [StdoutFile(dir), StderrFile(dir)];
    CollectOutputFilesShape(written, dir, base, listing);
    var files := CollectOutputFiles(written, dir, base, listing);
    assert files[..2] == base;
    assert files[0] == files[..2][0];
    assert files[1] == files[..2][1];
  }

  /** With a listing that names exactly the directory's children, the
      output-file list holds every regular file directly inside the
      directory, and whatever follows the two stream files is such a
      file. */
  lemma ListedRegularFiles(scanId: string, toolName: string, written: Disk, listing: seq<string>)
    requires ListsChildren(listing, OutputDir(scanId, toolName), written)
    ensures var dir := OutputDir(scanId, toolName);
      var files := CollectOutputFiles(written, dir, [StdoutFile(dir), StderrFile(dir)], listing);
      && |files| >= 2 && files[0] == StdoutFile(dir) && files[1] == StderrFile(dir)
      && (forall name :: ChildName(name) && PathJoin(dir, name) in written.files ==> PathJoin(dir, name) in files)
      && (forall k :: 2 <= k < |files| ==>
            files[k] in written.files && exists name :: ChildName(name) && files[k] == PathJoin(dir, name))
  {
    var dir := OutputDir(scanId, toolName);
    var base := [StdoutFile(dir), StderrFile(dir)];
    CollectOutputFilesShape(written, dir, base, listing);
    var files := CollectOutputFiles(written, dir, base, listing);
    assert files[..2] == base;
    assert files[0] == files[..2][0];
    assert files[1] == files[..2][1];
    forall name | ChildName(name) && PathJoin(dir, name) in written.files
      ensures PathJoin(dir, name) in files
    {
      var j :| 0 <= j < |listing| && listing[j] == name;
    }
    forall k | 2 <= k < |files|
      ensures files[k] in written.files && exists name :: ChildName(name) && files[k] == PathJoin(dir, name)
    {
      var j :| 0 <= j < |listing| && files[k] == PathJoin(dir, listing[j]);
      assert ChildName(listing[j]);
    }
  }
}
