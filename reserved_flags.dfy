/** The flags the nikto and sqlmap builders manage themselves occur
    exactly once in the commands they build, whatever parameters the user
    passes. */
module ReservedFlags {
  import opened Models
  import opened Paths
  import opened Builders

  /** nikto's backend-managed flags `-h`, `-Format` and `-o` each occur
      exactly once, whatever flags the user passes, as long as neither the
      target nor a parameter value is itself one of those words. */
  lemma NiktoReservedOnce(target: string, params: seq<ToolParameter>, scanId: string, toolName: string)
    requires target !in NiktoReserved
    requires forall p :: p in params ==> Render(p.value) !in NiktoReserved
    ensures multiset(NiktoCommand(target, params, scanId, toolName))["-h"] == 1
    ensures multiset(NiktoCommand(target, params, scanId, toolName))["-Format"] == 1
    ensures multiset(NiktoCommand(target, params, scanId, toolName))["-o"] == 1
  {
    var json := ReportFile(scanId, toolName, "nikto_results.json");
    ReportFileIsAbsolute(scanId, toolName, "nikto_results.json");
    NeverEmitted(NiktoPolicy, params, "-h");
    NeverEmitted(NiktoPolicy, params, "-Format");
    NeverEmitted(NiktoPolicy, params, "-o");
    NiktoHostOnce(target, json);
    NiktoFormatOnce(target, json);
    NiktoOutputOnce(target, json);
  }

  // The fixed part of nikto's command, one reserved flag at a time.

  lemma NiktoHostOnce(target: string, json: string)
    requires target !in NiktoReserved && |json| > 0 && json[0] == '/'
    ensures multiset(["perl", "/opt/nikto/program/nikto.pl", "-h", target, "-Format", "json", "-o", json])["-h"] == 1
  {
  }

  lemma NiktoFormatOnce(target: string, json: string)
    requires target !in NiktoReserved && |json| > 0 && json[0] == '/'
    ensures multiset(["perl", "/opt/nikto/program/nikto.pl", "-h", target, "-Format", "json", "-o", json])["-Format"] == 1
  {
  }

  lemma NiktoOutputOnce(target: string, json: string)
    requires target !in NiktoReserved && |json| > 0 && json[0] == '/'
    ensures multiset(["perl", "/opt/nikto/program/nikto.pl", "-h", target, "-Format", "json", "-o", json])["-o"] == 1
  {
    assert json != "-o";
  }

  /** sqlmap's `-u`, `--batch` and `--output-dir` each occur exactly once,
      as long as neither the target nor a parameter value is one of those
      words. */
  lemma SqlmapReservedOnce(target: string, params: seq<ToolParameter>, scanId: string, toolName: string)
    requires target !in SqlmapReserved
    requires forall p :: p in params ==> Render(p.value) !in SqlmapReserved
    ensures multiset(SqlmapCommand(target, params, scanId, toolName))["-u"] == 1
    ensures multiset(SqlmapCommand(target, params, scanId, toolName))["--batch"] == 1
    ensures multiset(SqlmapCommand(target, params, scanId, toolName))["--output-dir"] == 1
  {
    var dir := BuilderOutputDir(scanId, toolName) + "/";
    NeverEmitted(SqlmapPolicy, params, "-u");
    NeverEmitted(SqlmapPolicy, params, "--batch");
    NeverEmitted(SqlmapPolicy, params, "--output-dir");
    SqlmapUrlOnce(target, dir);
    SqlmapBatchOnce(target, dir);
    SqlmapOutputDirOnce(target, dir);
  }

  // The fixed part of sqlmap's command, one reserved flag at a time.

  lemma SqlmapUrlOnce(target: string, dir: string)
    requires target !in SqlmapReserved && |dir| > 0 && dir[0] == '/'
    ensures multiset(["sqlmap", "-u", target, "--batch", "--output-dir", dir])["-u"] == 1
  {
    assert dir != "-u";
  }

  lemma SqlmapBatchOnce(target: string, dir: string)
    requires target !in SqlmapReserved && |dir| > 0 && dir[0] == '/'
    ensures multiset(["sqlmap", "-u", target, "--batch", "--output-dir", dir])["--batch"] == 1
  {
    assert dir != "--batch";
  }

  lemma SqlmapOutputDirOnce(target: string, dir: string)
    requires target !in SqlmapReserved && |dir| > 0 && dir[0] == '/'
    ensures multiset(["sqlmap", "-u", target, "--batch", "--output-dir", dir])["--output-dir"] == 1
  {
    assert dir != "--output-dir";
  }
}
