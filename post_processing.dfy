/** The post-processors of app/post_processing.py: after a tool has run,
    choose which of its files go to the object store (an "llm" area for
    material meant for a language model, a "review" area for raw output),
    derive the nuclei digest and the httpx summary, and delete the tool's
    output directory only when every recorded upload succeeded. */
module PostProcessing {
  import opened Wrappers
  import opened Strings
  import opened Paths
  import opened FileSystem

  datatype Processor =
    | DefaultProcessor
    | NucleiProcessor | NiktoProcessor | SqlmapProcessor | TrivyProcessor | LynisProcessor | WpscanProcessor
    | SemgrepProcessor | TrufflehogProcessor | GitleaksProcessor | YaraProcessor | HttpxProcessor

  // ---------------------------------------------------------------------
  // The registry.
  // ---------------------------------------------------------------------

  /** The processors registered at import time, under their lower-case
      tool names. */
  const BuiltinProcessors: map<string, Processor> := map[
    "nuclei" := NucleiProcessor, "nikto" := NiktoProcessor, "sqlmap" := SqlmapProcessor,
    "trivy" := TrivyProcessor, "lynis" := LynisProcessor, "wpscan" := WpscanProcessor,
    "semgrep" := SemgrepProcessor, "trufflehog" := TrufflehogProcessor, "gitleaks" := GitleaksProcessor,
    "yara" := YaraProcessor, "httpx" := HttpxProcessor]

  /** `_post_processor_registry` with `register_post_processor` and
      `get_post_processor`. */
  class PostProcessorRegistry {
    var registry: map<string, Processor>

    constructor ()
      ensures registry == map[]
    {
      registry := map[];
    }

    /** The registration decorator: the name is stored lower-cased, a later
        registration under the same name replaces the earlier one. */
    method RegisterPostProcessor(toolName: string, p: Processor)
      modifies this
      ensures registry == old(registry)[Lower(toolName) := p]
      ensures forall name :: Lower(name) == Lower(toolName) ==> GetPostProcessor(name) == p
      ensures forall name :: Lower(name) != Lower(toolName) ==> GetPostProcessor(name) == old(GetPostProcessor(name))
    {
      registry := registry[Lower(toolName) := p];
    }

    /** What importing the module registers; the built-in names are already
        lower-case, so each decorator stores its name as written. */
    method RegisterBuiltins()
      modifies this
      ensures registry == old(registry) + BuiltinProcessors
    {
      registry := registry + BuiltinProcessors;
    }

    /** The lookup never fails: it is case-insensitive and falls back to
        the default processor for a name nobody registered. */
    function GetPostProcessor(toolName: string): (p: Processor)
      reads this
      ensures Lower(toolName) in registry ==> p == registry[Lower(toolName)]
      ensures Lower(toolName) !in registry ==> p == DefaultProcessor
    {
      if Lower(toolName) in registry then registry[Lower(toolName)] else DefaultProcessor
    }
  }

  // ---------------------------------------------------------------------
  // What a processor run did.
  // ---------------------------------------------------------------------

  /** One processor run: the uploads it attempted in order, the booleans it
      recorded for the cleanup decision, the files it derived and wrote
      into the output directory, and whether it deleted the directory. */
  datatype PostRun = PostRun(attempts: seq<Attempt>, recorded: seq<bool>, derived: map<string, string>, cleaned: bool)

  /** Python's `all(...)` over the recorded booleans. */
  predicate AllTrue(bs: seq<bool>)
  {
    false !in bs
  }

  /** The result of each attempt, in order. */
  function Oks(attempts: seq<Attempt>): seq<bool>
  {
    seq(|attempts|, i requires 0 <= i < |attempts| => attempts[i].ok)
  }

  lemma OksSnoc(attempts: seq<Attempt>, a: Attempt)
    ensures Oks(attempts + [a]) == Oks(attempts) + [a.ok]
  {
  }

  function WithDerived(disk: Disk, derived: map<string, string>): Disk
  {
    disk.(files := disk.files + derived)
  }

  /** The cleanup rule every processor follows: the directory is deleted
      exactly when every recorded boolean is true; otherwise the disk keeps
      everything, plus the derived files. */
  predicate Settled(run: PostRun, disk: Disk, disk': Disk, dir: string)
  {
    && (run.cleaned <==> AllTrue(run.recorded))
    && disk' == (if run.cleaned then DeleteLocalDirectory(WithDerived(disk, run.derived), dir) else WithDerived(disk, run.derived))
  }

  /** A failed upload is never forgotten: it blocks the cleanup. */
  predicate RecordsFailures(run: PostRun)
  {
    (exists i :: 0 <= i < |run.attempts| && !run.attempts[i].ok) ==> !AllTrue(run.recorded)
  }

  /** A run that records the result of each attempt, and nothing else,
      records every failure, and may clean up exactly when every attempt
      succeeded. */
  lemma OksRecordsFailures(run: PostRun)
    requires run.recorded == Oks(run.attempts)
    ensures RecordsFailures(run)
    ensures AllTrue(run.recorded) <==> forall i :: 0 <= i < |run.attempts| ==> run.attempts[i].ok
  {
    if exists i :: 0 <= i < |run.attempts| && !run.attempts[i].ok {
      var i :| 0 <= i < |run.attempts| && !run.attempts[i].ok;
      assert !run.recorded[i];
    }
  }

  lemma OksOfThree(a: Attempt, b: Attempt, c: Attempt)
    ensures AllTrue(Oks([a, b, c])) <==> a.ok && b.ok && c.ok
  {
    var oks := Oks([a, b, c]);
    assert oks == [a.ok, b.ok, c.ok];
  }

  /** The end every processor shares: delete the output directory, derived
      files included, exactly when every recorded result is true. */
  method Settle(attempts: seq<Attempt>, recorded: seq<bool>, derived: map<string, string>, disk: Disk, dir: string)
    returns (run: PostRun, disk': Disk)
    ensures run == PostRun(attempts, recorded, derived, AllTrue(recorded))
    ensures Settled(run, disk, disk', dir)
  {
    run := PostRun(attempts, recorded, derived, AllTrue(recorded));
    if run.cleaned {
      disk' := DeleteLocalDirectory(WithDerived(disk, derived), dir);
    } else {
      disk' := WithDerived(disk, derived);
    }
  }

  /** Writing one file does not change the upload of another. */
  lemma UploadIgnoresOtherWrite(disk: Disk, store: Store, p: string, contents: string, local: string, remote: string)
    requires local != p
    ensures Upload(WriteFile(disk, p, contents), store, local, remote) == Upload(disk, store, local, remote)
  {
  }

  /** When the cleanup is blocked, no file that was on the disk is lost. */
  lemma BlockedCleanupKeepsFiles(run: PostRun, disk: Disk, disk': Disk, dir: string)
    requires Settled(run, disk, disk', dir) && !AllTrue(run.recorded)
    ensures forall p :: p in disk.files ==> p in disk'.files
    ensures forall p :: p in disk.files && p !in run.derived ==> disk'.files[p] == disk.files[p]
  {
  }

  /** The object name `data/<scan>/vulnr/<tool>/<area>/<name>`. */
  function Remote(scanId: string, toolName: string, area: string, name: string): string
  {
    "data/" + scanId + "/vulnr/" + toolName + "/" + area + "/" + name
  }

  function StdoutFile(dir: string): string
  {
    PathJoin(dir, "output.stdout")
  }

  function StderrFile(dir: string): string
  {
    PathJoin(dir, "output.stderr")
  }

  /** Two different plain names in the same directory are different paths. */
  lemma DistinctInDir(dir: string, a: string, b: string)
    requires NoSlash(a) && NoSlash(b) && a != b
    ensures PathJoin(dir, a) != PathJoin(dir, b)
  {
    BasenameOfJoin(dir, a);
    BasenameOfJoin(dir, b);
  }

  // ---------------------------------------------------------------------
  // default_post_processor
  // ---------------------------------------------------------------------

  /** The uploads the default processor attempts: each listed file that
      exists, to the review area under its base name. */
  function DefaultAttempts(disk: Disk, store: Store, scanId: string, toolName: string, files: seq<string>): seq<Attempt>
  {
    if files == [] then []
    else
      var last := files[|files| - 1];
      DefaultAttempts(disk, store, scanId, toolName, files[..|files| - 1])
        + (if last in disk.files then [Upload(disk, store, last, Remote(scanId, toolName, "review", Basename(last)))] else [])
  }

  /** Every attempt is for a listed, existing file, sent to the review area
      under its base name; every listed existing file is attempted; with no
      existing file nothing is attempted. */
  lemma DefaultAttemptsExact(disk: Disk, store: Store, scanId: string, toolName: string, files: seq<string>)
    ensures forall a :: a in DefaultAttempts(disk, store, scanId, toolName, files) ==>
      a.local in files && a.local in disk.files && a.remote == Remote(scanId, toolName, "review", Basename(a.local))
      && a == Upload(disk, store, a.local, a.remote)
    ensures forall i :: 0 <= i < |files| && files[i] in disk.files ==>
      exists a :: (a in DefaultAttempts(disk, store, scanId, toolName, files) && a.local == files[i])
    ensures (forall i :: 0 <= i < |files| ==> files[i] !in disk.files) ==> DefaultAttempts(disk, store, scanId, toolName, files) == []
  {
    DefaultAttemptsSound(disk, store, scanId, toolName, files);
    DefaultAttemptsComplete(disk, store, scanId, toolName, files);
    DefaultAttemptsNone(disk, store, scanId, toolName, files);
  }

  lemma {:induction false} DefaultAttemptsSound(disk: Disk, store: Store, scanId: string, toolName: string, files: seq<string>)
    ensures forall a :: a in DefaultAttempts(disk, store, scanId, toolName, files) ==>
      a.local in files && a.local in disk.files && a.remote == Remote(scanId, toolName, "review", Basename(a.local))
      && a == Upload(disk, store, a.local, a.remote)
  {
    if files != [] {
      var init := files[..|files| - 1];
      DefaultAttemptsSound(disk, store, scanId, toolName, init);
      assert forall f :: f in init ==> f in files;
    }
  }

  lemma {:induction false} DefaultAttemptsComplete(disk: Disk, store: Store, scanId: string, toolName: string, files: seq<string>)
    ensures forall i :: 0 <= i < |files| && files[i] in disk.files ==>
      exists a :: (a in DefaultAttempts(disk, store, scanId, toolName, files) && a.local == files[i])
  {
    if files != [] {
      var init := files[..|files| - 1];
      var last := files[|files| - 1];
      DefaultAttemptsComplete(disk, store, scanId, toolName, init);
      var prev := DefaultAttempts(disk, store, scanId, toolName, init);
      var all := DefaultAttempts(disk, store, scanId, toolName, files);
      assert forall a :: a in prev ==> a in all;
      forall i | 0 <= i < |files| && files[i] in disk.files
        ensures exists a :: a in all && a.local == files[i]
      {
        if i < |init| {
          assert init[i] == files[i];
        } else {
          assert all[|all| - 1].local == last;
        }
      }
    }
  }

  lemma {:induction false} DefaultAttemptsNone(disk: Disk, store: Store, scanId: string, toolName: string, files: seq<string>)
    ensures (forall i :: 0 <= i < |files| ==> files[i] !in disk.files) ==> DefaultAttempts(disk, store, scanId, toolName, files) == []
  {
    if files != [] && forall i :: 0 <= i < |files| ==> files[i] !in disk.files {
      var init := files[..|files| - 1];
      assert forall i :: 0 <= i < |init| ==> init[i] == files[i];
      DefaultAttemptsNone(disk, store, scanId, toolName, init);
    }
  }

  /** The default processor cleans up exactly when every listed file that
      exists was accepted by the store. */
  lemma {:induction false} DefaultCleanupCondition(disk: Disk, store: Store, scanId: string, toolName: string, files: seq<string>)
    ensures AllTrue(Oks(DefaultAttempts(disk, store, scanId, toolName, files))) <==>
      forall i :: 0 <= i < |files| && files[i] in disk.files ==> store(files[i], Remote(scanId, toolName, "review", Basename(files[i])))
  {
    if files != [] {
      var init := files[..|files| - 1];
      var last := files[|files| - 1];
      DefaultCleanupCondition(disk, store, scanId, toolName, init);
      var prev := DefaultAttempts(disk, store, scanId, toolName, init);
      if last in disk.files {
        OksSnoc(prev, Upload(disk, store, last, Remote(scanId, toolName, "review", Basename(last))));
      } else {
        assert DefaultAttempts(disk, store, scanId, toolName, files) == prev;
      }
      assert forall i :: 0 <= i < |init| ==> init[i] == files[i];
    }
  }

  /** The upload loop of the default processor. */
  method UploadForReview(disk: Disk, store: Store, scanId: string, toolName: string, outputFiles: seq<string>)
    returns (attempts: seq<Attempt>, allUploadsSucceeded: bool)
    ensures attempts == DefaultAttempts(disk, store, scanId, toolName, outputFiles)
    ensures allUploadsSucceeded == AllTrue(Oks(attempts))
  {
    attempts := [];
    allUploadsSucceeded := true;
    for i := 0 to |outputFiles|
      invariant attempts == DefaultAttempts(disk, store, scanId, toolName, outputFiles[..i])
      invariant allUploadsSucceeded == AllTrue(Oks(attempts))
    {
      var filePath := outputFiles[i];
      if filePath in disk.files {
        var a := Upload(disk, store, filePath, Remote(scanId, toolName, "review", Basename(filePath)));
        OksSnoc(attempts, a);
        attempts := attempts + [a];
        if !a.ok {
          allUploadsSucceeded := false;
        }
      }
      assert outputFiles[..i + 1][..i] == outputFiles[..i];
    }
    assert outputFiles[..|outputFiles|] == outputFiles;
  }

  method DefaultPostProcessor(disk: Disk, store: Store, scanId: string, toolName: string, outputDir: string, outputFiles: seq<string>)
    returns (run: PostRun, disk': Disk)
    ensures run.attempts == DefaultAttempts(disk, store, scanId, toolName, outputFiles)
    ensures run.recorded == Oks(run.attempts) && run.derived == map[]
    ensures run.cleaned <==> forall i :: 0 <= i < |outputFiles| && outputFiles[i] in disk.files ==>
      store(outputFiles[i], Remote(scanId, toolName, "review", Basename(outputFiles[i])))
    ensures Settled(run, disk, disk', outputDir) && RecordsFailures(run)
  {
    var attempts, allUploadsSucceeded := UploadForReview(disk, store, scanId, toolName, outputFiles);
    DefaultCleanupCondition(disk, store, scanId, toolName, outputFiles);
    run := PostRun(attempts, Oks(attempts), map[], allUploadsSucceeded);
    if allUploadsSucceeded {
      disk' := DeleteLocalDirectory(disk, outputDir);
    } else {
      disk' := disk;
    }
    assert WithDerived(disk, map[]) == disk;
    if exists i :: 0 <= i < |attempts| && !attempts[i].ok {
      var i :| 0 <= i < |attempts| && !attempts[i].ok;
      assert !Oks(attempts)[i];
    }
  }

  // ---------------------------------------------------------------------
  // nuclei
  // ---------------------------------------------------------------------

  /** The text handed to the language model: stdout in full, stderr without
      its first 12 lines, each between triple quotes. */
  function NucleiDigest(stdout: string, stderr: string): string
  {
    "stdout: \"\"\"" + stdout + "\"\"\"\n\nstderr: \"\"\"" + DropLines(stderr, 12) + "\"\"\""
  }

  /** The stderr part of the digest is what follows the first 12 lines of
      stderr, and is empty when stderr has no more than 12 lines. */
  lemma NucleiDigestDropsTwelveLines(stdout: string, stderr: string)
    ensures exists rest :: (NucleiDigest(stdout, stderr) == "stdout: \"\"\"" + stdout + "\"\"\"\n\nstderr: \"\"\"" + rest + "\"\"\""
                            && TakeLines(stderr, 12) + rest == stderr && EndsWith(stderr, rest)
                            && (|Lines(stderr)| <= 12 ==> rest == ""))
  {
    TakeDropLines(stderr, 12);
    var rest := DropLines(stderr, 12);
    assert NucleiDigest(stdout, stderr) == "stdout: \"\"\"" + stdout + "\"\"\"\n\nstderr: \"\"\"" + rest + "\"\"\"";
  }

  function ReadOr(disk: Disk, p: string): string
  {
    if p in disk.files then disk.files[p] else ""
  }

  function CompiledFile(dir: string): string
  {
    PathJoin(dir, "compiled_llm_input.txt")
  }

  method PostProcessNuclei(disk: Disk, store: Store, scanId: string, toolName: string, outputDir: string)
    returns (run: PostRun, disk': Disk)
    ensures run.derived == map[CompiledFile(outputDir) := NucleiDigest(ReadOr(disk, StdoutFile(outputDir)), ReadOr(disk, StderrFile(outputDir)))]
    ensures run.attempts == [
      Upload(WithDerived(disk, run.derived), store, CompiledFile(outputDir), Remote(scanId, toolName, "llm", "compiled_llm_input.txt")),
      Upload(disk, store, StdoutFile(outputDir), Remote(scanId, toolName, "review", "output.stdout")),
      Upload(disk, store, StderrFile(outputDir), Remote(scanId, toolName, "review", "output.stderr"))]
    ensures run.attempts[0].sent == Some(NucleiDigest(ReadOr(disk, StdoutFile(outputDir)), ReadOr(disk, StderrFile(outputDir))))
    ensures run.recorded == Oks(run.attempts)
    ensures run.cleaned <==>
      && store(CompiledFile(outputDir), Remote(scanId, toolName, "llm", "compiled_llm_input.txt"))
      && StdoutFile(outputDir) in disk.files && store(StdoutFile(outputDir), Remote(scanId, toolName, "review", "output.stdout"))
      && StderrFile(outputDir) in disk.files && store(StderrFile(outputDir), Remote(scanId, toolName, "review", "output.stderr"))
    ensures Settled(run, disk, disk', outputDir) && RecordsFailures(run)
  {
    var stdoutFile := StdoutFile(outputDir);
    var stderrFile := StderrFile(outputDir);
    var compiledFile := CompiledFile(outputDir);
    DistinctInDir(outputDir, "compiled_llm_input.txt", "output.stdout");
    DistinctInDir(outputDir, "compiled_llm_input.txt", "output.stderr");

    var stdoutContent := "";
    var stderrContentProcessed := "";
    if stdoutFile in disk.files {
      stdoutContent := disk.files[stdoutFile];
    }
    if stderrFile in disk.files {
      stderrContentProcessed := DropLines(disk.files[stderrFile], 12);
    }
    var llmInputContent := "stdout: \"\"\"" + stdoutContent + "\"\"\"\n\nstderr: \"\"\"" + stderrContentProcessed + "\"\"\"";
    var written := WriteFile(disk, compiledFile, llmInputContent);

    var llm := Upload(written, store, compiledFile, Remote(scanId, toolName, "llm", "compiled_llm_input.txt"));
    var stdoutReview := Upload(written, store, stdoutFile, Remote(scanId, toolName, "review", "output.stdout"));
    var stderrReview := Upload(written, store, stderrFile, Remote(scanId, toolName, "review", "output.stderr"));
    UploadIgnoresOtherWrite(disk, store, compiledFile, llmInputContent, stdoutFile, Remote(scanId, toolName, "review", "output.stdout"));
    UploadIgnoresOtherWrite(disk, store, compiledFile, llmInputContent, stderrFile, Remote(scanId, toolName, "review", "output.stderr"));
    var uploads := [llm, stdoutReview, stderrReview];

    assert WithDerived(disk, map[compiledFile := llmInputContent]) == written;
    run, disk' := Settle(uploads, Oks(uploads), map[compiledFile := llmInputContent], disk, outputDir);
    OksRecordsFailures(run);
    OksOfThree(llm, stdoutReview, stderrReview);
    assert llm.ok == store(compiledFile, Remote(scanId, toolName, "llm", "compiled_llm_input.txt"));
  }

  // ---------------------------------------------------------------------
  // nikto
  // ---------------------------------------------------------------------

  function NiktoJson(dir: string): string
  {
    PathJoin(dir, "nikto_results.json")
  }

  /** What nikto uploads: stdout twice, for the model and for review, when
      it exists, then the JSON report when it exists. */
  function NiktoAttempts(disk: Disk, store: Store, scanId: string, toolName: string, outputDir: string): seq<Attempt>
  {
    (if StdoutFile(outputDir) in disk.files
     then [Upload(disk, store, StdoutFile(outputDir), Remote(scanId, toolName, "llm", "nikto_llm_input.txt")),
           Upload(disk, store, StdoutFile(outputDir), Remote(scanId, toolName, "review", "output.stdout"))]
     else [])
    + (if NiktoJson(outputDir) in disk.files
       then [Upload(disk, store, NiktoJson(outputDir), Remote(scanId, toolName, "review", "nikto_results.json"))]
       else [])
  }

  /** A missing stdout counts as a failure of its own. */
  function NiktoRecorded(disk: Disk, store: Store, scanId: string, toolName: string, outputDir: string): seq<bool>
  {
    (if StdoutFile(outputDir) in disk.files then [] else [false]) + Oks(NiktoAttempts(disk, store, scanId, toolName, outputDir))
  }

  /** nikto cleans up exactly when stdout exists and both its uploads
      succeed, and the JSON report, if present, was uploaded too; every
      failed upload blocks the cleanup. */
  lemma NiktoCleanup(disk: Disk, store: Store, scanId: string, toolName: string, outputDir: string, cleaned: bool)
    ensures AllTrue(NiktoRecorded(disk, store, scanId, toolName, outputDir)) <==>
      && StdoutFile(outputDir) in disk.files
      && store(StdoutFile(outputDir), Remote(scanId, toolName, "llm", "nikto_llm_input.txt"))
      && store(StdoutFile(outputDir), Remote(scanId, toolName, "review", "output.stdout"))
      && (NiktoJson(outputDir) in disk.files ==> store(NiktoJson(outputDir), Remote(scanId, toolName, "review", "nikto_results.json")))
    ensures RecordsFailures(PostRun(NiktoAttempts(disk, store, scanId, toolName, outputDir),
                                    NiktoRecorded(disk, store, scanId, toolName, outputDir), map[], cleaned))
  {
    var attempts := NiktoAttempts(disk, store, scanId, toolName, outputDir);
    var recorded := NiktoRecorded(disk, store, scanId, toolName, outputDir);
    if StdoutFile(outputDir) in disk.files {
      assert recorded == Oks(attempts);
      OksRecordsFailures(PostRun(attempts, recorded, map[], cleaned));
      assert attempts[0].ok == store(StdoutFile(outputDir), Remote(scanId, toolName, "llm", "nikto_llm_input.txt"));
      assert attempts[1].ok == store(StdoutFile(outputDir), Remote(scanId, toolName, "review", "output.stdout"));
      if NiktoJson(outputDir) in disk.files {
        assert |attempts| == 3;
        assert attempts[2].ok == store(NiktoJson(outputDir), Remote(scanId, toolName, "review", "nikto_results.json"));
      } else {
        assert |attempts| == 2;
      }
    } else {
      assert !recorded[0];
    }
  }

  method PostProcessNikto(disk: Disk, store: Store, scanId: string, toolName: string, outputDir: string)
    returns (run: PostRun, disk': Disk)
    ensures run.attempts == NiktoAttempts(disk, store, scanId, toolName, outputDir)
    ensures run.recorded == NiktoRecorded(disk, store, scanId, toolName, outputDir)
    ensures run.derived == map[]
    ensures run.cleaned <==>
      && StdoutFile(outputDir) in disk.files
      && store(StdoutFile(outputDir), Remote(scanId, toolName, "llm", "nikto_llm_input.txt"))
      && store(StdoutFile(outputDir), Remote(scanId, toolName, "review", "output.stdout"))
      && (NiktoJson(outputDir) in disk.files ==> store(NiktoJson(outputDir), Remote(scanId, toolName, "review", "nikto_results.json")))
    ensures Settled(run, disk, disk', outputDir) && RecordsFailures(run)
  {
    var stdoutFile := StdoutFile(outputDir);
    var jsonFile := NiktoJson(outputDir);
    var attempts: seq<Attempt> := [];
    var uploadsSucceeded: seq<bool> := [];

    if stdoutFile in disk.files {
      var llm := Upload(disk, store, stdoutFile, Remote(scanId, toolName, "llm", "nikto_llm_input.txt"));
      attempts, uploadsSucceeded := attempts + [llm], uploadsSucceeded + [llm.ok];
    } else {
      uploadsSucceeded := uploadsSucceeded + [false];
    }
    if stdoutFile in disk.files {
      var review := Upload(disk, store, stdoutFile, Remote(scanId, toolName, "review", "output.stdout"));
      attempts, uploadsSucceeded := attempts + [review], uploadsSucceeded + [review.ok];
    }
    if jsonFile in disk.files {
      var review := Upload(disk, store, jsonFile, Remote(scanId, toolName, "review", "nikto_results.json"));
      attempts, uploadsSucceeded := attempts + [review], uploadsSucceeded + [review.ok];
    }

    assert attempts == NiktoAttempts(disk, store, scanId, toolName, outputDir);
    assert uploadsSucceeded == NiktoRecorded(disk, store, scanId, toolName, outputDir);
    assert WithDerived(disk, map[]) == disk;
    run, disk' := Settle(attempts, uploadsSucceeded, map[], disk, outputDir);
    NiktoCleanup(disk, store, scanId, toolName, outputDir, run.cleaned);
  }

  // ---------------------------------------------------------------------
  // sqlmap
  // ---------------------------------------------------------------------

  /** The first entry of the listing that is a directory, as a path. */
  function FirstDir(disk: Disk, dir: string, listing: seq<string>): (r: Option<string>)
    ensures r.None? <==> forall k :: 0 <= k < |listing| ==> PathJoin(dir, listing[k]) !in disk.dirs
    ensures r.Some? ==> r.value in disk.dirs
    ensures r.Some? ==> exists k :: (0 <= k < |listing| && r.value == PathJoin(dir, listing[k])
                                    && forall m :: 0 <= m < k ==> PathJoin(dir, listing[m]) !in disk.dirs)
  {
    if listing == [] then None
    else if PathJoin(dir, listing[0]) in disk.dirs then Some(PathJoin(dir, listing[0]))
    else
      var r := FirstDir(disk, dir, listing[1..]);
      if r.Some? then
        ghost var k :| 0 <= k < |listing[1..]| && r.value == PathJoin(dir, listing[1..][k])
          && forall m :: 0 <= m < k ==> PathJoin(dir, listing[1..][m]) !in disk.dirs;
        assert listing[k + 1] == listing[1..][k];
        r
      else r
  }

  /** The loop looking for sqlmap's result directory: the first listed
      entry that is a directory. */
  method FindResultDir(disk: Disk, outputDir: string, listing: seq<string>) returns (found: Option<string>)
    ensures found == FirstDir(disk, outputDir, listing)
  {
    found := None;
    var i := 0;
    while i < |listing| && found.None?
      invariant 0 <= i <= |listing|
      invariant found.None? ==> FirstDir(disk, outputDir, listing) == FirstDir(disk, outputDir, listing[i..])
      invariant found.Some? ==> found == FirstDir(disk, outputDir, listing)
    {
      var path := PathJoin(outputDir, listing[i]);
      assert listing[i..][1..] == listing[i + 1..];
      if path in disk.dirs {
        found := Some(path);
      }
      i := i + 1;
    }
  }

  function LogFile(resultDir: string): string
  {
    PathJoin(resultDir, "log")
  }

  /** The branch taken when sqlmap left no result directory: stdout, if
      present, goes to a `_FAILURE` review name, its result is not
      recorded, and the directory is deleted regardless. */
  method SqlmapWithoutResultDir(disk: Disk, store: Store, scanId: string, toolName: string, outputDir: string)
    returns (run: PostRun, disk': Disk)
    ensures run.attempts == (if StdoutFile(outputDir) in disk.files
                             then [Upload(disk, store, StdoutFile(outputDir), Remote(scanId, toolName, "review", "output.stdout_FAILURE"))]
                             else [])
    ensures run.recorded == [] && run.derived == map[] && run.cleaned
    ensures Settled(run, disk, disk', outputDir)
  {
    var stdoutFile := StdoutFile(outputDir);
    var attempts: seq<Attempt> := [];
    if stdoutFile in disk.files {
      attempts := [Upload(disk, store, stdoutFile, Remote(scanId, toolName, "review", "output.stdout_FAILURE"))];
    }
    disk' := DeleteLocalDirectory(disk, outputDir);
    run := PostRun(attempts, [], map[], true);
    assert WithDerived(disk, map[]) == disk;
  }

  /** What sqlmap uploads when it left a result directory: the log to the
      llm area, stdout to the review area, the log again to the review
      area, each when present. */
  function SqlmapAttempts(disk: Disk, store: Store, scanId: string, toolName: string, outputDir: string, resultDir: string): seq<Attempt>
  {
    (if LogFile(resultDir) in disk.files then [Upload(disk, store, LogFile(resultDir), Remote(scanId, toolName, "llm", "sqlmap_log.txt"))] else [])
    + (if StdoutFile(outputDir) in disk.files
       then [Upload(disk, store, StdoutFile(outputDir), Remote(scanId, toolName, "review", "output.stdout"))] else [])
    + (if LogFile(resultDir) in disk.files then [Upload(disk, store, LogFile(resultDir), Remote(scanId, toolName, "review", "log.txt"))] else [])
  }

  /** A missing log counts as a failure of its own. */
  function SqlmapRecorded(disk: Disk, store: Store, scanId: string, toolName: string, outputDir: string, resultDir: string): seq<bool>
  {
    (if LogFile(resultDir) in disk.files then [] else [false]) + Oks(SqlmapAttempts(disk, store, scanId, toolName, outputDir, resultDir))
  }

  /** With a result directory, sqlmap cleans up exactly when the log exists
      and both its uploads succeed, and stdout, if present, was uploaded
      too; every failed upload blocks the cleanup. */
  lemma SqlmapCleanup(disk: Disk, store: Store, scanId: string, toolName: string, outputDir: string, resultDir: string, cleaned: bool)
    ensures AllTrue(SqlmapRecorded(disk, store, scanId, toolName, outputDir, resultDir)) <==>
      && LogFile(resultDir) in disk.files
      && store(LogFile(resultDir), Remote(scanId, toolName, "llm", "sqlmap_log.txt"))
      && store(LogFile(resultDir), Remote(scanId, toolName, "review", "log.txt"))
      && (StdoutFile(outputDir) in disk.files ==> store(StdoutFile(outputDir), Remote(scanId, toolName, "review", "output.stdout")))
    ensures RecordsFailures(PostRun(SqlmapAttempts(disk, store, scanId, toolName, outputDir, resultDir),
                                    SqlmapRecorded(disk, store, scanId, toolName, outputDir, resultDir), map[], cleaned))
  {
    var attempts := SqlmapAttempts(disk, store, scanId, toolName, outputDir, resultDir);
    var recorded := SqlmapRecorded(disk, store, scanId, toolName, outputDir, resultDir);
    if LogFile(resultDir) in disk.files {
      assert recorded == Oks(attempts);
      OksRecordsFailures(PostRun(attempts, recorded, map[], cleaned));
      assert attempts[0].ok == store(LogFile(resultDir), Remote(scanId, toolName, "llm", "sqlmap_log.txt"));
      if StdoutFile(outputDir) in disk.files {
        assert |attempts| == 3;
        assert attempts[1].ok == store(StdoutFile(outputDir), Remote(scanId, toolName, "review", "output.stdout"));
        assert attempts[2].ok == store(LogFile(resultDir), Remote(scanId, toolName, "review", "log.txt"));
      } else {
        assert |attempts| == 2;
        assert attempts[1].ok == store(LogFile(resultDir), Remote(scanId, toolName, "review", "log.txt"));
      }
    } else {
      assert !recorded[0];
    }
  }

  /** The branch with a result directory: its `log` goes to the llm area
      (a missing log records a failure), stdout and the log to the review
      area when present. */
  method SqlmapWithResultDir(disk: Disk, store: Store, scanId: string, toolName: string, outputDir: string, resultDir: string)
    returns (run: PostRun, disk': Disk)
    ensures run.attempts == SqlmapAttempts(disk, store, scanId, toolName, outputDir, resultDir)
    ensures run.recorded == SqlmapRecorded(disk, store, scanId, toolName, outputDir, resultDir)
    ensures run.derived == map[]
    ensures run.cleaned <==>
      && LogFile(resultDir) in disk.files
      && store(LogFile(resultDir), Remote(scanId, toolName, "llm", "sqlmap_log.txt"))
      && store(LogFile(resultDir), Remote(scanId, toolName, "review", "log.txt"))
      && (StdoutFile(outputDir) in disk.files ==> store(StdoutFile(outputDir), Remote(scanId, toolName, "review", "output.stdout")))
    ensures Settled(run, disk, disk', outputDir) && RecordsFailures(run)
  {
    var stdoutFile := StdoutFile(outputDir);
    var logFile := LogFile(resultDir);
    var attempts: seq<Attempt> := [];
    var uploadsSucceeded: seq<bool> := [];
    if logFile in disk.files {
      var llm := Upload(disk, store, logFile, Remote(scanId, toolName, "llm", "sqlmap_log.txt"));
      attempts, uploadsSucceeded := attempts + [llm], uploadsSucceeded + [llm.ok];
    } else {
      uploadsSucceeded := uploadsSucceeded + [false];
    }
    if stdoutFile in disk.files {
      var review := Upload(disk, store, stdoutFile, Remote(scanId, toolName, "review", "output.stdout"));
      attempts, uploadsSucceeded := attempts + [review], uploadsSucceeded + [review.ok];
    }
    if logFile in disk.files {
      var review := Upload(disk, store, logFile, Remote(scanId, toolName, "review", "log.txt"));
      attempts, uploadsSucceeded := attempts + [review], uploadsSucceeded + [review.ok];
    }

    assert attempts == SqlmapAttempts(disk, store, scanId, toolName, outputDir, resultDir);
    assert uploadsSucceeded == SqlmapRecorded(disk, store, scanId, toolName, outputDir, resultDir);
    assert WithDerived(disk, map[]) == disk;
    run, disk' := Settle(attempts, uploadsSucceeded, map[], disk, outputDir);
    SqlmapCleanup(disk, store, scanId, toolName, outputDir, resultDir, run.cleaned);
  }

  method PostProcessSqlmap(disk: Disk, store: Store, scanId: string, toolName: string, outputDir: string, listing: seq<string>)
    returns (run: PostRun, disk': Disk)
    ensures FirstDir(disk, outputDir, listing).None? ==>
      && run.attempts == (if StdoutFile(outputDir) in disk.files
                          then [Upload(disk, store, StdoutFile(outputDir), Remote(scanId, toolName, "review", "output.stdout_FAILURE"))]
                          else [])
      && run.recorded == [] && run.cleaned
    ensures FirstDir(disk, outputDir, listing).Some? ==>
      var log := LogFile(FirstDir(disk, outputDir, listing).value);
      && (run.cleaned <==>
           && log in disk.files
           && store(log, Remote(scanId, toolName, "llm", "sqlmap_log.txt"))
           && store(log, Remote(scanId, toolName, "review", "log.txt"))
           && (StdoutFile(outputDir) in disk.files ==> store(StdoutFile(outputDir), Remote(scanId, toolName, "review", "output.stdout"))))
      && RecordsFailures(run)
    ensures Settled(run, disk, disk', outputDir)
  {
    var resultDir := FindResultDir(disk, outputDir, listing);
    if resultDir.None? {
      run, disk' := SqlmapWithoutResultDir(disk, store, scanId, toolName, outputDir);
    } else {
      run, disk' := SqlmapWithResultDir(disk, store, scanId, toolName, outputDir, resultDir.value);
    }
  }

  // ---------------------------------------------------------------------
  // trivy and lynis: one file, one upload.
  // ---------------------------------------------------------------------

  /** A single upload of `local` to the review area; a missing file counts
      as a failed upload. */
  method SingleUpload(disk: Disk, store: Store, local: string, remote: string, outputDir: string)
    returns (run: PostRun, disk': Disk)
    ensures run.attempts == (if local in disk.files then [Upload(disk, store, local, remote)] else [])
    ensures run.recorded == [local in disk.files && store(local, remote)]
    ensures run.derived == map[]
    ensures run.cleaned <==> local in disk.files && store(local, remote)
    ensures Settled(run, disk, disk', outputDir) && RecordsFailures(run)
  {
    var attempts: seq<Attempt> := [];
    var uploadSucceeded := false;
    if local in disk.files {
      var a := Upload(disk, store, local, remote);
      attempts := [a];
      uploadSucceeded := a.ok;
    }
    run := PostRun(attempts, [uploadSucceeded], map[], uploadSucceeded);
    assert WithDerived(disk, map[]) == disk;
    if uploadSucceeded {
      disk' := DeleteLocalDirectory(disk, outputDir);
    } else {
      disk' := disk;
    }
  }

  method PostProcessTrivy(disk: Disk, store: Store, scanId: string, toolName: string, outputDir: string)
    returns (run: PostRun, disk': Disk)
    ensures var local := PathJoin(outputDir, "trivy_results.json");
      var remote := Remote(scanId, toolName, "review", "trivy_results.json");
      && run.attempts == (if local in disk.files then [Upload(disk, store, local, remote)] else [])
      && (run.cleaned <==> local in disk.files && store(local, remote))
    ensures Settled(run, disk, disk', outputDir) && RecordsFailures(run)
  {
    run, disk' := SingleUpload(disk, store, PathJoin(outputDir, "trivy_results.json"),
                               Remote(scanId, toolName, "review", "trivy_results.json"), outputDir);
  }

  method PostProcessLynis(disk: Disk, store: Store, scanId: string, toolName: string, outputDir: string)
    returns (run: PostRun, disk': Disk)
    ensures var local := StdoutFile(outputDir);
      var remote := Remote(scanId, toolName, "review", "lynis_audit_output.txt");
      && run.attempts == (if local in disk.files then [Upload(disk, store, local, remote)] else [])
      && (run.cleaned <==> local in disk.files && store(local, remote))
    ensures Settled(run, disk, disk', outputDir) && RecordsFailures(run)
  {
    run, disk' := SingleUpload(disk, store, StdoutFile(outputDir),
                               Remote(scanId, toolName, "review", "lynis_audit_output.txt"), outputDir);
  }

  // ---------------------------------------------------------------------
  // wpscan, semgrep, trufflehog, gitleaks, yara: one file, two areas.
  // ---------------------------------------------------------------------

  /** The file `name` of the output directory uploaded to the llm area as
      `llmName` and to the review area under its own name; a missing file
      records one failure. */
  method UploadToBothAreas(disk: Disk, store: Store, scanId: string, toolName: string, outputDir: string, name: string, llmName: string)
    returns (run: PostRun, disk': Disk)
    ensures var local := PathJoin(outputDir, name);
      var llm := Remote(scanId, toolName, "llm", llmName);
      var review := Remote(scanId, toolName, "review", name);
      && run.attempts == (if local in disk.files then [Upload(disk, store, local, llm), Upload(disk, store, local, review)] else [])
      && run.recorded == (if local in disk.files then Oks(run.attempts) else [false])
      && (run.cleaned <==> local in disk.files && store(local, llm) && store(local, review))
    ensures run.derived == map[]
    ensures Settled(run, disk, disk', outputDir) && RecordsFailures(run)
  {
    var local := PathJoin(outputDir, name);
    var attempts: seq<Attempt> := [];
    var uploadsSucceeded: seq<bool> := [];
    if local in disk.files {
      var llm := Upload(disk, store, local, Remote(scanId, toolName, "llm", llmName));
      attempts, uploadsSucceeded := attempts + [llm], uploadsSucceeded + [llm.ok];
      var review := Upload(disk, store, local, Remote(scanId, toolName, "review", name));
      attempts, uploadsSucceeded := attempts + [review], uploadsSucceeded + [review.ok];
    } else {
      uploadsSucceeded := uploadsSucceeded + [false];
    }
    run := PostRun(attempts, uploadsSucceeded, map[], AllTrue(uploadsSucceeded));
    assert WithDerived(disk, map[]) == disk;
    if AllTrue(uploadsSucceeded) {
      disk' := DeleteLocalDirectory(disk, outputDir);
    } else {
      disk' := disk;
    }
    if local !in disk.files {
      assert !uploadsSucceeded[0];
    }
  }

  /** Which file each dual-area processor sends, and its llm-area name. */
  function DualAreaFiles(p: Processor): (string, string)
  {
    match p
    case WpscanProcessor => ("wpscan_results.json", "wpscan_results.json")
    case SemgrepProcessor => ("output.stderr", "semgrep_scan_output.txt")
    case TrufflehogProcessor => ("output.stdout", "trufflehog_scan_output.txt")
    case GitleaksProcessor => ("gitleaks_results.json", "gitleaks_results.json")
    case YaraProcessor => ("output.stderr", "yara_scan_output.txt")
    case _ => ("", "")
  }

  predicate IsDualArea(p: Processor)
  {
    p == WpscanProcessor || p == SemgrepProcessor || p == TrufflehogProcessor || p == GitleaksProcessor || p == YaraProcessor
  }

  // ---------------------------------------------------------------------
  // httpx
  // ---------------------------------------------------------------------

  function SummaryFile(dir: string): string
  {
    PathJoin(dir, "httpx_summary.txt")
  }

  /** The summary step for an existing stdout: with at least 20 lines the
      first 20 are written to `httpx_summary.txt` and that file is sent;
      with fewer, stdout itself is sent under the summary's name. Either
      way the summary that leaves the machine is the first 20 lines. */
  method UploadSummary(disk: Disk, store: Store, scanId: string, toolName: string, outputDir: string)
    returns (llm: Attempt, derived: map<string, string>)
    requires StdoutFile(outputDir) in disk.files
    ensures var stdout := disk.files[StdoutFile(outputDir)];
      && llm.remote == Remote(scanId, toolName, "llm", "httpx_summary.txt")
      && llm.sent == Some(TakeLines(stdout, 20))
      && (|Lines(stdout)| >= 20 ==>
            derived == map[SummaryFile(outputDir) := TakeLines(stdout, 20)]
            && llm == Upload(WithDerived(disk, derived), store, SummaryFile(outputDir), llm.remote))
      && (|Lines(stdout)| < 20 ==>
            derived == map[] && llm == Upload(disk, store, StdoutFile(outputDir), llm.remote))
  {
    var stdoutFile := StdoutFile(outputDir);
    var summaryFile := SummaryFile(outputDir);
    var stdout := disk.files[stdoutFile];
    var lines := Lines(stdout);
    TakeDropLines(stdout, 20);
    if |lines| >= 20 {
      var summaryLines := lines[..20];
      if |lines| == 20 {
        assert summaryLines == lines;
      }
      derived := map[summaryFile := Concat(summaryLines)];
      llm := Upload(WithDerived(disk, derived), store, summaryFile, Remote(scanId, toolName, "llm", "httpx_summary.txt"));
    } else {
      derived := map[];
      llm := Upload(disk, store, stdoutFile, Remote(scanId, toolName, "llm", "httpx_summary.txt"));
    }
  }

  method PostProcessHttpx(disk: Disk, store: Store, scanId: string, toolName: string, outputDir: string)
    returns (run: PostRun, disk': Disk)
    ensures StdoutFile(outputDir) !in disk.files ==>
      run.attempts == [] && run.recorded == [false] && run.derived == map[]
    ensures StdoutFile(outputDir) in disk.files ==>
      var stdout := disk.files[StdoutFile(outputDir)];
      && |run.attempts| == 2
      && run.attempts[0].remote == Remote(scanId, toolName, "llm", "httpx_summary.txt")
      && run.attempts[0].sent == Some(TakeLines(stdout, 20))
      && run.attempts[1] == Upload(disk, store, StdoutFile(outputDir), Remote(scanId, toolName, "review", "output.stdout"))
      && run.recorded == Oks(run.attempts)
      && (|Lines(stdout)| >= 20 ==>
            run.derived == map[SummaryFile(outputDir) := TakeLines(stdout, 20)] && run.attempts[0].local == SummaryFile(outputDir))
      && (|Lines(stdout)| < 20 ==>
            run.derived == map[] && run.attempts[0] == Upload(disk, store, StdoutFile(outputDir), run.attempts[0].remote))
    ensures run.cleaned <==>
      && StdoutFile(outputDir) in disk.files
      && store(if |Lines(disk.files[StdoutFile(outputDir)])| >= 20 then SummaryFile(outputDir) else StdoutFile(outputDir),
               Remote(scanId, toolName, "llm", "httpx_summary.txt"))
      && store(StdoutFile(outputDir), Remote(scanId, toolName, "review", "output.stdout"))
    ensures Settled(run, disk, disk', outputDir) && RecordsFailures(run)
  {
    var stdoutFile := StdoutFile(outputDir);
    var attempts: seq<Attempt> := [];
    var uploadsSucceeded: seq<bool> := [];
    var derived: map<string, string> := map[];

    if stdoutFile !in disk.files {
      uploadsSucceeded := uploadsSucceeded + [false];
    } else {
      DistinctInDir(outputDir, "httpx_summary.txt", "output.stdout");
      var llm;
      llm, derived := UploadSummary(disk, store, scanId, toolName, outputDir);
      attempts, uploadsSucceeded := attempts + [llm], uploadsSucceeded + [llm.ok];
      var review := Upload(WithDerived(disk, derived), store, stdoutFile, Remote(scanId, toolName, "review", "output.stdout"));
      assert review == Upload(disk, store, stdoutFile, Remote(scanId, toolName, "review", "output.stdout"));
      attempts, uploadsSucceeded := attempts + [review], uploadsSucceeded + [review.ok];
    }

    run, disk' := Settle(attempts, uploadsSucceeded, derived, disk, outputDir);
    if stdoutFile in disk.files {
      assert uploadsSucceeded == Oks(attempts);
      OksRecordsFailures(run);
      if run.cleaned {
        assert attempts[0].ok && attempts[1].ok;
      }
    } else {
      assert !uploadsSucceeded[0];
    }
  }

  // ---------------------------------------------------------------------
  // Dispatch.
  // ---------------------------------------------------------------------

  /** Calling the processor the registry chose. Whatever it is, the cleanup
      rule holds, and a failed upload blocks the cleanup everywhere except
      in sqlmap's no-result-directory branch, which records nothing. */
  method RunPostProcessor(p: Processor, disk: Disk, store: Store, listing: seq<string>,
                          scanId: string, toolName: string, outputDir: string, outputFiles: seq<string>)
    returns (run: PostRun, disk': Disk)
    ensures Settled(run, disk, disk', outputDir)
    ensures RecordsFailures(run) || (p == SqlmapProcessor && run.recorded == [] && run.cleaned)
    ensures p == DefaultProcessor ==> run.attempts == DefaultAttempts(disk, store, scanId, toolName, outputFiles)
  {
    match p {
      case DefaultProcessor =>
        run, disk' := DefaultPostProcessor(disk, store, scanId, toolName, outputDir, outputFiles);
      case NucleiProcessor =>
        run, disk' := PostProcessNuclei(disk, store, scanId, toolName, outputDir);
      case NiktoProcessor =>
        run, disk' := PostProcessNikto(disk, store, scanId, toolName, outputDir);
      case SqlmapProcessor =>
        run, disk' := PostProcessSqlmap(disk, store, scanId, toolName, outputDir, listing);
      case TrivyProcessor =>
        run, disk' := PostProcessTrivy(disk, store, scanId, toolName, outputDir);
      case LynisProcessor =>
        run, disk' := PostProcessLynis(disk, store, scanId, toolName, outputDir);
      case HttpxProcessor =>
        run, disk' := PostProcessHttpx(disk, store, scanId, toolName, outputDir);
      case _ =>
        var (name, llmName) := DualAreaFiles(p);
        run, disk' := UploadToBothAreas(disk, store, scanId, toolName, outputDir, name, llmName);
    }
  }
}
