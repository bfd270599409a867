/** The command builders of app/tool_runner.py: for each supported tool,
    how `(target, parameters, scan_id, tool_name)` becomes an argument
    vector.

    Every builder ends with the same loop over the user's parameters; the
    builders differ only in which flags that loop drops, whether it skips
    empty flags, which flags it renames, how it prints list values and
    whether it emits valued parameters at all. `EmitPolicy` records those
    differences, `ParamArgs`/`ArgsFor` state the shared rule, and
    `EmitParameters` is the loop. The builders' own prefixes, required
    parameters and repository checkouts are stated per tool. */
module Builders {
  import opened Wrappers
  import opened Strings
  import opened Models
  import opened Paths

  // ---------------------------------------------------------------------
  // The shared parameter-emission rule.
  // ---------------------------------------------------------------------

  datatype EmitPolicy = EmitPolicy(
    skipped: set<string>,          // flags the builder drops (backend-managed or consumed elsewhere)
    skipEmpty: bool,               // `if not flag: continue`
    renames: map<string, string>,  // legacy flag -> the tool's flag
    joinLists: bool,               // a list value is printed comma-joined
    flagsOnly: bool)               // only `not requiresValue` parameters are emitted

  function Renamed(pol: EmitPolicy, flag: string): string
  {
    if flag in pol.renames then pol.renames[flag] else flag
  }

  /** The text emitted after a flag that takes a value. */
  function ValueText(pol: EmitPolicy, v: Value): string
  {
    if pol.joinLists && v.List? then Join(",", v.items) else Render(v)
  }

  /** What one parameter contributes: nothing when its flag is dropped;
      `[flag, value]` when it takes a value and has one; `[flag]` when it
      is a switch whose value is truthy; nothing otherwise. */
  function ParamArgs(pol: EmitPolicy, p: ToolParameter): seq<string>
  {
    if p.flag in pol.skipped || (pol.skipEmpty && p.flag == "") then []
    else
      var flag := Renamed(pol, p.flag);
      if pol.flagsOnly then (if !p.requiresValue && Truthy(p.value) then [flag] else [])
      else if p.requiresValue then (if p.value.Null? then [] else [flag, ValueText(pol, p.value)])
      else if Truthy(p.value) then [flag] else []
  }

  /** The arguments a parameter list contributes, in order. */
  function ArgsFor(pol: EmitPolicy, ps: seq<ToolParameter>): seq<string>
  {
    if ps == [] then [] else ArgsFor(pol, ps[..|ps| - 1]) + ParamArgs(pol, ps[|ps| - 1])
  }

  /** The parameter loop every builder runs, appending to `cmd`. */
  method EmitParameters(cmd: seq<string>, pol: EmitPolicy, ps: seq<ToolParameter>) returns (r: seq<string>)
    ensures r == cmd + ArgsFor(pol, ps)
  {
    r := cmd;
    var i := 0;
    while i < |ps|
      invariant 0 <= i <= |ps|
      invariant r == cmd + ArgsFor(pol, ps[..i])
    {
      r := EmitParameter(r, pol, ps[i]);
      assert ps[..i + 1][..i] == ps[..i];
      i := i + 1;
    }
    assert ps[..i] == ps;
  }

  /** The body of the parameter loop for one parameter. */
  method EmitParameter(cmd: seq<string>, pol: EmitPolicy, p: ToolParameter) returns (r: seq<string>)
    ensures r == cmd + ParamArgs(pol, p)
  {
    r := cmd;
    var flag := p.flag;
    if flag !in pol.skipped && !(pol.skipEmpty && flag == "") {
      if flag in pol.renames {
        flag := pol.renames[flag];
      }
      if pol.flagsOnly {
        if !p.requiresValue && Truthy(p.value) {
          r := r + [flag];
        }
      } else if p.requiresValue && !p.value.Null? {
        if pol.joinLists && p.value.List? {
          r := r + [flag, Join(",", p.value.items)];
        } else {
          r := r + [flag, Render(p.value)];
        }
      } else if !p.requiresValue {
        if Truthy(p.value) {
          r := r + [flag];
        }
      }
    }
  }

  /** Every argument the loop emits is the (renamed) flag of a parameter
      that was not dropped, or, unless only switches are emitted, the
      printed value of such a parameter. So a dropped flag never appears
      as a flag, and a renamed one only under its new name. */
  lemma {:induction false} ArgsForOrigin(pol: EmitPolicy, ps: seq<ToolParameter>, x: string)
    requires x in ArgsFor(pol, ps)
    ensures exists p :: (p in ps && p.flag !in pol.skipped && !(pol.skipEmpty && p.flag == "")
                         && (x == Renamed(pol, p.flag) || (!pol.flagsOnly && x == ValueText(pol, p.value))))
  {
    var init, last := ps[..|ps| - 1], ps[|ps| - 1];
    assert last in ps;
    if x in ArgsFor(pol, init) {
      ArgsForOrigin(pol, init, x);
      var p :| p in init && p.flag !in pol.skipped && !(pol.skipEmpty && p.flag == "")
        && (x == Renamed(pol, p.flag) || (!pol.flagsOnly && x == ValueText(pol, p.value)));
      assert p in ps;
    }
  }

  /** In switch-only mode each emitted argument is the flag of a parameter
      that does not take a value and whose value is truthy. */
  lemma {:induction false} FlagsOnlyArgs(pol: EmitPolicy, ps: seq<ToolParameter>, x: string)
    requires pol.flagsOnly && x in ArgsFor(pol, ps)
    ensures exists p :: (p in ps && p.flag !in pol.skipped && !p.requiresValue && Truthy(p.value)
                         && x == Renamed(pol, p.flag))
  {
    var init, last := ps[..|ps| - 1], ps[|ps| - 1];
    assert last in ps;
    if x in ArgsFor(pol, init) {
      FlagsOnlyArgs(pol, init, x);
      var p :| p in init && p.flag !in pol.skipped && !p.requiresValue && Truthy(p.value)
        && x == Renamed(pol, p.flag);
      assert p in ps;
    }
  }

  /** A text that no parameter can put on the command line (it is dropped
      as a flag, not produced by renaming, and no value prints as it) does
      not occur among the emitted arguments. */
  lemma NeverEmitted(pol: EmitPolicy, ps: seq<ToolParameter>, x: string)
    requires x in pol.skipped
    requires forall f :: f in pol.renames ==> pol.renames[f] != x
    requires forall p :: p in ps ==> ValueText(pol, p.value) != x
    ensures x !in ArgsFor(pol, ps)
    ensures multiset(ArgsFor(pol, ps))[x] == 0
  {
    if x in ArgsFor(pol, ps) {
      ArgsForOrigin(pol, ps, x);
    }
  }

  // ---------------------------------------------------------------------
  // Paths and messages shared by the builders.
  // ---------------------------------------------------------------------

  /** A file inside the tool's output directory, as the builders name it. */
  function ReportFile(scanId: string, toolName: string, name: string): string
  {
    PathJoin(BuilderOutputDir(scanId, toolName), name)
  }

  function SourceDir(scanId: string, toolName: string): string
  {
    ReportFile(scanId, toolName, "source")
  }

  lemma ReportFileIsAbsolute(scanId: string, toolName: string, name: string)
    requires name != [] && name[0] != '/'
    ensures ReportFile(scanId, toolName, name)[0] == '/'
  {
  }

  /** The stand-in for a command that cannot be built: a shell script
      meant to print `msg` to stderr and exit with status 1. The message is
      placed between single quotes as it is, without escaping. */
  function ErrorCommand(msg: string): seq<string>
  {
    ["sh", "-c", "echo '" + msg + "' >&2 && exit 1"]
  }

  /** `sh -c` with a script of the form `echo '...' >&2 && exit 1`. */
  predicate IsFailureScript(cmd: seq<string>)
  {
    && |cmd| == 3 && cmd[0] == "sh" && cmd[1] == "-c"
    && StartsWith(cmd[2], "echo '") && EndsWith(cmd[2], "' >&2 && exit 1")
  }

  lemma ErrorCommandIsFailureScript(msg: string)
    ensures IsFailureScript(ErrorCommand(msg))
  {
    var script := "echo '" + msg + "' >&2 && exit 1";
    assert script == "echo '" + (msg + "' >&2 && exit 1");
    assert script == ("echo '" + msg) + "' >&2 && exit 1";
  }

  /** Where the shell closes a single-quoted word opened before `from`:
      the first `'` at or after `from`, or the end of the text. */
  function QuoteClose(s: string, from: nat): (k: nat)
    requires from <= |s|
    ensures from <= k <= |s|
    ensures k < |s| ==> s[k] == '\''
    ensures forall j :: from <= j < k ==> s[j] != '\''
    decreases |s| - from
  {
    if from == |s| || s[from] == '\'' then from else QuoteClose(s, from + 1)
  }

  /** A message without single quotes is one literal word: the quote opened
      by `echo '` closes right after the message, and what follows is the
      redirection and `exit 1`. */
  lemma ErrorCommandEchoesLiteral(msg: string)
    requires forall k :: 0 <= k < |msg| ==> msg[k] != '\''
    ensures var s := ErrorCommand(msg)[2];
      && |s| > 6 + |msg|
      && s[..6] == "echo '" && s[6..6 + |msg|] == msg
      && QuoteClose(s, 6) == 6 + |msg|
      && s[6 + |msg| + 1..] == " >&2 && exit 1"
  {
    var s := ErrorCommand(msg)[2];
    assert s[6 + |msg|] == '\'';
    assert forall j :: 6 <= j < 6 + |msg| ==> s[j] == msg[j - 6];
  }

  /** A message with a single quote breaks out of the quoted word: the
      shell closes it at the message's first quote, and the rest of the
      message is read as shell syntax. */
  lemma ErrorCommandQuoteClosesEarly(msg: string, i: nat)
    requires i < |msg| && msg[i] == '\''
    requires forall j :: 0 <= j < i ==> msg[j] != '\''
    ensures QuoteClose(ErrorCommand(msg)[2], 6) == 6 + i < 6 + |msg|
  {
    var s := ErrorCommand(msg)[2];
    assert forall j :: 6 <= j < 6 + |msg| ==> s[j] == msg[j - 6];
    assert s[6 + i] == '\'';
  }

  /** `next((p for p in parameters if p.flag == flag), None)`: the first
      parameter carrying `flag`. */
  function FindParam(ps: seq<ToolParameter>, flag: string): (r: Option<ToolParameter>)
    ensures r.None? <==> forall i :: 0 <= i < |ps| ==> ps[i].flag != flag
    ensures r.Some? ==> exists i :: (0 <= i < |ps| && ps[i] == r.value && ps[i].flag == flag
                                     && forall j :: 0 <= j < i ==> ps[j].flag != flag)
  {
    if ps == [] then None
    else if ps[0].flag == flag then Some(ps[0])
    else
      var r := FindParam(ps[1..], flag);
      if r.Some? then
        ghost var i :| 0 <= i < |ps[1..]| && ps[1..][i] == r.value && ps[1..][i].flag == flag
          && forall j :: 0 <= j < i ==> ps[1..][j].flag != flag;
        assert ps[i + 1] == r.value;
        r
      else r
  }

  /** The parameters whose flag is not `flag`, in their original order:
      what the nuclei and trivy partition loops keep for the generic
      emission. */
  function WithoutFlag(ps: seq<ToolParameter>, flag: string): (r: seq<ToolParameter>)
    ensures forall p :: p in r <==> p in ps && p.flag != flag
  {
    if ps == [] then []
    else WithoutFlag(ps[..|ps| - 1], flag) + (if ps[|ps| - 1].flag == flag then [] else [ps[|ps| - 1]])
  }

  /** `any(p.flag == flag for p in parameters)`. */
  predicate HasFlag(ps: seq<ToolParameter>, flag: string)
  {
    exists i :: 0 <= i < |ps| && ps[i].flag == flag
  }

  /** The string URL a clone-based tool reads from its `gitURL`/`repoURL`
      parameter: the first such parameter, and only if its value is a
      string. */
  function RepoUrl(ps: seq<ToolParameter>, flag: string): Option<string>
  {
    match FindParam(ps, flag)
    case None => None
    case Some(p) => if p.value.Str? then Some(p.value.s) else None
  }

  // ---------------------------------------------------------------------
  // Repository checkout (`_clone_repo`).
  // ---------------------------------------------------------------------

  /** What running `git clone` did: it exited with a status and an error
      stream, or it could not be started at all (the exception the source
      lets propagate). */
  datatype CloneRun = CloneExited(returnCode: int, stderr: string) | CloneRaised(message: string)

  /** The process runner, as an oracle from the argument vector to what
      happened. */
  type Git = seq<string> -> CloneRun

  function CloneCommand(repoUrl: string, sourceDir: string): seq<string>
  {
    ["git", "clone", "--depth", "1", repoUrl, sourceDir]
  }

  /** `_clone_repo`'s pair: the checkout directory, or the command to run
      instead. */
  datatype Checkout = Checkout(sourceDir: Option<string>, errorCommand: Option<seq<string>>)

  function CloneFailureMessage(stderr: string): string
  {
    "Failed to clone repository: " + Strip(stderr)
  }

  /** `_clone_repo`: a shallow clone into `<output dir>/source`. Exactly one
      half of the pair is present: the directory when git exits with 0,
      a failing shell command otherwise. A git that cannot be started is
      an error the caller sees. */
  function CloneRepo(repoUrl: string, scanId: string, toolName: string, git: Git): (r: Result<Checkout>)
    ensures r.Success? <==> git(CloneCommand(repoUrl, SourceDir(scanId, toolName))).CloneExited?
    ensures r.Success? ==> (r.value.sourceDir.Some? <==> r.value.errorCommand.None?)
    ensures r.Success? ==>
      (r.value.sourceDir.Some? <==> git(CloneCommand(repoUrl, SourceDir(scanId, toolName))).returnCode == 0)
    ensures r.Success? && r.value.sourceDir.Some? ==> r.value.sourceDir.value == SourceDir(scanId, toolName)
    ensures r.Success? && r.value.errorCommand.Some? ==> IsFailureScript(r.value.errorCommand.value)
    ensures r.Success? && r.value.errorCommand.Some? ==>
      r.value.errorCommand == Some(ErrorCommand(CloneFailureMessage(git(CloneCommand(repoUrl, SourceDir(scanId, toolName))).stderr)))
  {
    var sourceDir := SourceDir(scanId, toolName);
    match git(CloneCommand(repoUrl, sourceDir))
    case CloneRaised(msg) => Failure(msg)
    case CloneExited(rc, stderr) =>
      if rc != 0 then
        ErrorCommandIsFailureScript(CloneFailureMessage(stderr));
        Success(Checkout(None, Some(ErrorCommand(CloneFailureMessage(stderr)))))
      else Success(Checkout(Some(sourceDir), None))
  }

  // ---------------------------------------------------------------------
  // The builders: the policies and the commands they produce.
  // ---------------------------------------------------------------------

  datatype Builder = Nuclei | Nikto | Sqlmap | Trivy | Lynis | Wpscan | Semgrep | Trufflehog | Gitleaks | Yara | Httpx

  /** The rule as most builders apply it: empty flags skipped, nothing
      dropped or renamed, values printed with `str`. */
  const PlainPolicy := EmitPolicy({}, true, map[], false, false)

  const NucleiPolicy := EmitPolicy({}, true, map[], true, false)

  const NiktoReserved: set<string> := {"-h", "-o", "-Format"}
  const NiktoPolicy := EmitPolicy(NiktoReserved, true, map[], false, false)

  const SqlmapReserved: set<string> := {"-u", "--output-dir", "--batch"}
  const SqlmapPolicy := EmitPolicy(SqlmapReserved, true, map[], false, false)

  const WpscanPolicy := EmitPolicy({}, true, map["--random-agent" := "--random-user-agent"], false, false)

  const SemgrepPolicy := EmitPolicy({"gitURL"}, true, map[], false, false)

  const TrufflehogPolicy := EmitPolicy({"repoURL", "--regex", "--entropy"}, false, map[], false, true)

  /** gitleaks and yara: `repoURL` dropped, empty flags NOT skipped. */
  const RepoPolicy := EmitPolicy({"repoURL"}, false, map[], false, false)

  // --- nuclei ----------------------------------------------------------

  const DefaultTemplates := "/root/nuclei-templates"

  function NucleiBase(target: string, scanId: string, toolName: string): seq<string>
  {
    ["nuclei", "-u", target, "-no-color", "-stats", "-jsonl", "-o", ReportFile(scanId, toolName, "nuclei_results.json")]
  }

  /** The template paths one parameter supplies: each element of a list,
      or the printed value when it is a truthy scalar. */
  function TemplateValues(p: ToolParameter): seq<string>
  {
    if p.flag != "-t" then []
    else if p.value.List? then p.value.items
    else if Truthy(p.value) then [Render(p.value)]
    else []
  }

  function TemplatePaths(ps: seq<ToolParameter>): seq<string>
  {
    if ps == [] then [] else TemplatePaths(ps[..|ps| - 1]) + TemplateValues(ps[|ps| - 1])
  }

  /** `-t <path>` for each path, in order. */
  function PerTemplate(paths: seq<string>): seq<string>
  {
    if paths == [] then [] else PerTemplate(paths[..|paths| - 1]) + ["-t", paths[|paths| - 1]]
  }

  function TemplateArgs(paths: seq<string>): seq<string>
  {
    if paths == [] then ["-t", DefaultTemplates] else PerTemplate(paths)
  }

  function NucleiCommand(target: string, params: seq<ToolParameter>, scanId: string, toolName: string): seq<string>
  {
    NucleiBase(target, scanId, toolName) + TemplateArgs(TemplatePaths(params))
      + ArgsFor(NucleiPolicy, WithoutFlag(params, "-t"))
  }

  /** Each path gets its own `-t`, in the order given. */
  lemma {:induction false} PerTemplateShape(paths: seq<string>)
    ensures |PerTemplate(paths)| == 2 * |paths|
    ensures forall k :: 0 <= k < |paths| ==> PerTemplate(paths)[2 * k] == "-t" && PerTemplate(paths)[2 * k + 1] == paths[k]
  {
    if paths != [] {
      var init := paths[..|paths| - 1];
      PerTemplateShape(init);
      forall k | 0 <= k < |paths|
        ensures PerTemplate(paths)[2 * k] == "-t" && PerTemplate(paths)[2 * k + 1] == paths[k]
      {
        if k < |init| {
          assert PerTemplate(paths)[2 * k] == PerTemplate(init)[2 * k];
          assert PerTemplate(paths)[2 * k + 1] == PerTemplate(init)[2 * k + 1];
        }
      }
    }
  }

  /** No template path is collected exactly when every `-t` parameter has
      a falsy value (an empty list counts as falsy). */
  lemma {:induction false} TemplatePathsEmptyIff(ps: seq<ToolParameter>)
    ensures TemplatePaths(ps) == [] <==> forall i :: 0 <= i < |ps| && ps[i].flag == "-t" ==> !Truthy(ps[i].value)
  {
    if ps != [] {
      var init := ps[..|ps| - 1];
      TemplatePathsEmptyIff(init);
      assert forall i :: 0 <= i < |init| ==> init[i] == ps[i];
    }
  }

  /** Apart from the `-t` markers, the template section holds exactly the
      user's paths. */
  lemma {:induction false} PerTemplateMembers(paths: seq<string>, x: string)
    requires x != "-t"
    ensures x in PerTemplate(paths) <==> x in paths
  {
    if paths != [] {
      var init := paths[..|paths| - 1];
      PerTemplateMembers(init, x);
      assert paths == init + [paths[|paths| - 1]];
    }
  }

  /** The nuclei command: the backend prefix, then the user's templates
      each as `-t <path>` in order or, only when there are none, the
      default template directory, then the other parameters. The default
      directory appears among the user's templates only if the user named
      it. */
  lemma NucleiTemplates(target: string, params: seq<ToolParameter>, scanId: string, toolName: string)
    ensures |NucleiCommand(target, params, scanId, toolName)| >= 10
    ensures |NucleiCommand(target, params, scanId, toolName)| >= 8 + 2 * |TemplatePaths(params)|
    ensures NucleiCommand(target, params, scanId, toolName)[..8] == NucleiBase(target, scanId, toolName)
    ensures TemplatePaths(params) == [] ==>
      NucleiCommand(target, params, scanId, toolName)[8..10] == ["-t", DefaultTemplates]
    ensures forall k :: 0 <= k < |TemplatePaths(params)| ==>
      NucleiCommand(target, params, scanId, toolName)[8 + 2 * k] == "-t"
      && NucleiCommand(target, params, scanId, toolName)[9 + 2 * k] == TemplatePaths(params)[k]
    ensures TemplatePaths(params) != [] ==>
      (DefaultTemplates in NucleiCommand(target, params, scanId, toolName)[8..8 + 2 * |TemplatePaths(params)|]
       <==> DefaultTemplates in TemplatePaths(params))
  {
    var paths := TemplatePaths(params);
    var cmd := NucleiCommand(target, params, scanId, toolName);
    var base := NucleiBase(target, scanId, toolName);
    var rest := ArgsFor(NucleiPolicy, WithoutFlag(params, "-t"));
    var section := TemplateArgs(paths);
    assert cmd == base + section + rest;
    assert cmd[..8] == base;
    if paths != [] {
      PerTemplateShape(paths);
      assert cmd[8..8 + 2 * |paths|] == section;
      PerTemplateMembers(paths, DefaultTemplates);
    } else {
      assert cmd[8..10] == section;
    }
  }

  /** The partition loop: template paths collected, every other parameter
      kept in order. */
  method CollectTemplates(params: seq<ToolParameter>) returns (paths: seq<string>, others: seq<ToolParameter>)
    ensures paths == TemplatePaths(params)
    ensures others == WithoutFlag(params, "-t")
  {
    paths, others := [], [];
    var i := 0;
    while i < |params|
      invariant 0 <= i <= |params|
      invariant paths == TemplatePaths(params[..i])
      invariant others == WithoutFlag(params[..i], "-t")
    {
      var p := params[i];
      if p.flag == "-t" {
        if p.value.List? {
          paths := paths + p.value.items;
        } else if Truthy(p.value) {
          paths := paths + [Render(p.value)];
        }
      } else {
        others := others + [p];
      }
      assert params[..i + 1][..i] == params[..i];
      i := i + 1;
    }
    assert params[..i] == params;
  }

  /** `-t <path>` for each collected path, or the default directory. */
  method AddTemplates(cmd: seq<string>, paths: seq<string>) returns (r: seq<string>)
    ensures r == cmd + TemplateArgs(paths)
  {
    if paths == [] {
      return cmd + ["-t", DefaultTemplates];
    }
    r := cmd;
    var j := 0;
    while j < |paths|
      invariant 0 <= j <= |paths|
      invariant r == cmd + PerTemplate(paths[..j])
    {
      r := r + ["-t", paths[j]];
      assert paths[..j + 1][..j] == paths[..j];
      j := j + 1;
    }
    assert paths[..j] == paths;
  }

  method BuildNuclei(target: string, params: seq<ToolParameter>, scanId: string, toolName: string) returns (cmd: seq<string>)
    ensures cmd == NucleiCommand(target, params, scanId, toolName)
  {
    cmd := ["nuclei", "-u", target, "-no-color", "-stats", "-jsonl", "-o", ReportFile(scanId, toolName, "nuclei_results.json")];
    var paths, others := CollectTemplates(params);
    cmd := AddTemplates(cmd, paths);
    cmd := EmitParameters(cmd, NucleiPolicy, others);
  }

  // --- nikto -----------------------------------------------------------

  function NiktoCommand(target: string, params: seq<ToolParameter>, scanId: string, toolName: string): seq<string>
  {
    ["perl", "/opt/nikto/program/nikto.pl", "-h", target, "-Format", "json", "-o", ReportFile(scanId, toolName, "nikto_results.json")]
      + ArgsFor(NiktoPolicy, params)
  }

  method BuildNikto(target: string, params: seq<ToolParameter>, scanId: string, toolName: string) returns (cmd: seq<string>)
    ensures cmd == NiktoCommand(target, params, scanId, toolName)
  {
    cmd := ["perl", "/opt/nikto/program/nikto.pl", "-h", target];
    cmd := cmd + ["-Format", "json", "-o", ReportFile(scanId, toolName, "nikto_results.json")];
    cmd := EmitParameters(cmd, NiktoPolicy, params);
  }

  // --- sqlmap ----------------------------------------------------------

  function SqlmapCommand(target: string, params: seq<ToolParameter>, scanId: string, toolName: string): seq<string>
  {
    ["sqlmap", "-u", target, "--batch", "--output-dir", BuilderOutputDir(scanId, toolName) + "/"]
      + ArgsFor(SqlmapPolicy, params)
  }

  method BuildSqlmap(target: string, params: seq<ToolParameter>, scanId: string, toolName: string) returns (cmd: seq<string>)
    ensures cmd == SqlmapCommand(target, params, scanId, toolName)
  {
    var outputDir := BuilderOutputDir(scanId, toolName) + "/";
    cmd := ["sqlmap", "-u", target, "--batch", "--output-dir", outputDir];
    cmd := EmitParameters(cmd, SqlmapPolicy, params);
  }

  // --- trivy -----------------------------------------------------------

  const TrivyMissingImage := "Trivy scan requires 'imageName' parameter."

  /** The image name: the value of the LAST `imageName` parameter, `None`
      when there is none. */
  function ImageName(ps: seq<ToolParameter>): Value
  {
    if ps == [] then Null
    else if ps[|ps| - 1].flag == "imageName" then ps[|ps| - 1].value
    else ImageName(ps[..|ps| - 1])
  }

  /** The name Python gives the type of a value. */
  function TypeName(v: Value): string
  {
    match v
    case Null => "NoneType"
    case Bool(_) => "bool"
    case Int(_) => "int"
    case Str(_) => "str"
    case List(_) => "list"
  }

  /** The `TypeError` `' '.join` raises when item `index` is not a string. */
  function JoinTypeError(index: nat, v: Value): string
  {
    "sequence item " + NatToString(index) + ": expected str instance, " + TypeName(v) + " found"
  }

  /** The image value goes into the command as it is, at position 6; the
      command is then joined with spaces for the log line, which raises for
      an image that is not a string. */
  const TrivyImageIndex := 6

  function TrivyCommand(params: seq<ToolParameter>, scanId: string, toolName: string): Result<seq<string>>
  {
    var image := ImageName(params);
    if !Truthy(image) then Failure(TrivyMissingImage)
    else if !image.Str? then Failure(JoinTypeError(TrivyImageIndex, image))
    else Success(["trivy", "image", "--format", "json", "-o", ReportFile(scanId, toolName, "trivy_results.json"), image.s]
                 + ArgsFor(PlainPolicy, WithoutFlag(params, "imageName")))
  }

  method BuildTrivy(params: seq<ToolParameter>, scanId: string, toolName: string) returns (r: Result<seq<string>>)
    ensures r == TrivyCommand(params, scanId, toolName)
  {
    var json := ReportFile(scanId, toolName, "trivy_results.json");
    var image := Null;
    var others: seq<ToolParameter> := [];
    var i := 0;
    while i < |params|
      invariant 0 <= i <= |params|
      invariant image == ImageName(params[..i])
      invariant others == WithoutFlag(params[..i], "imageName")
    {
      var p := params[i];
      if p.flag == "imageName" {
        image := p.value;
      } else {
        others := others + [p];
      }
      assert params[..i + 1][..i] == params[..i];
      i := i + 1;
    }
    assert params[..i] == params;
    if !Truthy(image) {
      return Failure(TrivyMissingImage);
    }
    if !image.Str? {
      return Failure(JoinTypeError(TrivyImageIndex, image));
    }
    var cmd := ["trivy", "image", "--format", "json", "-o", json, image.s];
    cmd := EmitParameters(cmd, PlainPolicy, others);
    r := Success(cmd);
  }

  /** The image name is the value of the last `imageName` parameter. */
  lemma {:induction false} ImageNameIsLast(ps: seq<ToolParameter>, i: nat)
    requires i < |ps| && ps[i].flag == "imageName"
    requires forall j :: i < j < |ps| ==> ps[j].flag != "imageName"
    ensures ImageName(ps) == ps[i].value
  {
    if i < |ps| - 1 {
      ImageNameIsLast(ps[..|ps| - 1], i);
    }
  }

  lemma {:induction false} ImageNameAbsent(ps: seq<ToolParameter>)
    requires forall j :: 0 <= j < |ps| ==> ps[j].flag != "imageName"
    ensures ImageName(ps) == Null
  {
    if ps != [] {
      ImageNameAbsent(ps[..|ps| - 1]);
    }
  }

  /** trivy builds a command only for a non-empty string image name: a
      missing or falsy one is refused with the missing-image error, and a
      truthy value of another type makes the log line's join raise. A
      built command starts with the fixed image-scan prefix and the image,
      and `imageName` is never emitted as a flag. */
  lemma TrivyImageRequired(params: seq<ToolParameter>, scanId: string, toolName: string)
    ensures TrivyCommand(params, scanId, toolName).Failure? <==> !(ImageName(params).Str? && ImageName(params).s != "")
    ensures !Truthy(ImageName(params)) ==> TrivyCommand(params, scanId, toolName) == Failure(TrivyMissingImage)
    ensures Truthy(ImageName(params)) && !ImageName(params).Str? ==>
      TrivyCommand(params, scanId, toolName) == Failure(JoinTypeError(6, ImageName(params)))
    ensures (forall j :: 0 <= j < |params| ==> params[j].flag != "imageName") ==>
      TrivyCommand(params, scanId, toolName) == Failure(TrivyMissingImage)
    ensures TrivyCommand(params, scanId, toolName).Success? ==>
      var cmd := TrivyCommand(params, scanId, toolName).value;
      && |cmd| >= 7
      && cmd[..7] == ["trivy", "image", "--format", "json", "-o", ReportFile(scanId, toolName, "trivy_results.json"), ImageName(params).s]
      && ((forall p :: p in params ==> Render(p.value) != "imageName") ==> "imageName" !in cmd[7..])
  {
    if forall j :: 0 <= j < |params| ==> params[j].flag != "imageName" {
      ImageNameAbsent(params);
    }
    var others := WithoutFlag(params, "imageName");
    if "imageName" in ArgsFor(PlainPolicy, others) && (forall p :: p in params ==> Render(p.value) != "imageName") {
      ArgsForOrigin(PlainPolicy, others, "imageName");
    }
  }

  // --- lynis -----------------------------------------------------------

  function LynisCommand(params: seq<ToolParameter>, scanId: string, toolName: string): seq<string>
  {
    ["lynis", "audit", "system", "--cronjob",
     "--logfile", ReportFile(scanId, toolName, "lynis.log"),
     "--report-file", ReportFile(scanId, toolName, "lynis-report.dat")]
      + ArgsFor(PlainPolicy, params)
  }

  method BuildLynis(params: seq<ToolParameter>, scanId: string, toolName: string) returns (cmd: seq<string>)
    ensures cmd == LynisCommand(params, scanId, toolName)
  {
    var logFile := ReportFile(scanId, toolName, "lynis.log");
    var reportFile := ReportFile(scanId, toolName, "lynis-report.dat");
    cmd := ["lynis", "audit", "system", "--cronjob", "--logfile", logFile, "--report-file", reportFile];
    cmd := EmitParameters(cmd, PlainPolicy, params);
  }

  // --- wpscan ----------------------------------------------------------

  predicate HasWebSchemeIgnoringCase(s: string)
  {
    StartsWith(Lower(s), "http://") || StartsWith(Lower(s), "https://")
  }

  /** wpscan's target: `http://` is prefixed unless the target already
      starts with `http://` or `https://` in any letter case. */
  function WpscanUrl(target: string): string
  {
    if HasWebSchemeIgnoringCase(target) then target else "http://" + target
  }

  lemma LowerPrefix(s: string, n: nat)
    requires n <= |s|
    ensures Lower(s)[..n] == Lower(s[..n])
  {
  }

  /** The wpscan URL always carries a web scheme, and normalising twice is
      normalising once. */
  lemma WpscanUrlNormalised(target: string)
    ensures HasWebSchemeIgnoringCase(WpscanUrl(target))
    ensures WpscanUrl(WpscanUrl(target)) == WpscanUrl(target)
    ensures HasWebSchemeIgnoringCase(target) ==> WpscanUrl(target) == target
  {
    if !HasWebSchemeIgnoringCase(target) {
      var u := "http://" + target;
      LowerPrefix(u, 7);
      assert u[..7] == "http://";
      assert Lower("http://") == "http://";
    }
  }

  function WpscanCommand(target: string, params: seq<ToolParameter>, scanId: string, toolName: string): seq<string>
  {
    ["wpscan", "--url", WpscanUrl(target), "--format", "json", "--output", ReportFile(scanId, toolName, "wpscan_results.json"), "--no-update"]
      + ArgsFor(WpscanPolicy, params)
  }

  method BuildWpscan(target: string, params: seq<ToolParameter>, scanId: string, toolName: string) returns (cmd: seq<string>)
    ensures cmd == WpscanCommand(target, params, scanId, toolName)
  {
    var json := ReportFile(scanId, toolName, "wpscan_results.json");
    var checkedTarget := target;
    if !(StartsWith(Lower(target), "http://") || StartsWith(Lower(target), "https://")) {
      checkedTarget := "http://" + target;
    }
    cmd := ["wpscan", "--url", checkedTarget, "--format", "json", "--output", json, "--no-update"];
    cmd := EmitParameters(cmd, WpscanPolicy, params);
  }

  /** wpscan never receives `--random-agent`: the flag is emitted as
      `--random-user-agent` (unless some value is literally that word). */
  lemma WpscanRenamesRandomAgent(params: seq<ToolParameter>)
    requires forall p :: p in params ==> Render(p.value) != "--random-agent"
    ensures "--random-agent" !in ArgsFor(WpscanPolicy, params)
  {
    if "--random-agent" in ArgsFor(WpscanPolicy, params) {
      ArgsForOrigin(WpscanPolicy, params, "--random-agent");
    }
  }

  // --- semgrep ---------------------------------------------------------

  const SemgrepMissingUrl := "Semgrep scan requires a 'gitURL' parameter with a valid git repository URL."

  function SemgrepCommand(params: seq<ToolParameter>, scanId: string, toolName: string, git: Git): seq<string>
  {
    match RepoUrl(params, "gitURL")
    case None => ErrorCommand(SemgrepMissingUrl)
    case Some(url) =>
      var sourceDir := SourceDir(scanId, toolName);
      match git(CloneCommand(url, sourceDir))
      case CloneRaised(msg) => ErrorCommand("An unexpected error occurred during git clone: " + msg)
      case CloneExited(rc, stderr) =>
        if rc != 0 then ErrorCommand(CloneFailureMessage(stderr)) else SemgrepScan(params, scanId, toolName)
  }

  /** The scan of a fresh checkout: `--config auto` unless the user gave a
      `--config` parameter. */
  function SemgrepScan(params: seq<ToolParameter>, scanId: string, toolName: string): seq<string>
  {
    ["semgrep", "scan", "--json", "-o", ReportFile(scanId, toolName, "semgrep_results.json"), SourceDir(scanId, toolName)]
      + (if HasFlag(params, "--config") then [] else ["--config", "auto"])
      + ArgsFor(SemgrepPolicy, params)
  }

  method BuildSemgrep(params: seq<ToolParameter>, scanId: string, toolName: string, git: Git) returns (cmd: seq<string>)
    ensures cmd == SemgrepCommand(params, scanId, toolName, git)
  {
    var urlParam := FindParam(params, "gitURL");
    if urlParam.None? || !urlParam.value.value.Str? {
      return ErrorCommand(SemgrepMissingUrl);
    }
    var repoUrl := urlParam.value.value.s;
    var sourceDir := SourceDir(scanId, toolName);
    var run := git(CloneCommand(repoUrl, sourceDir));
    if run.CloneRaised? {
      return ErrorCommand("An unexpected error occurred during git clone: " + run.message);
    } else if run.returnCode != 0 {
      return ErrorCommand(CloneFailureMessage(run.stderr));
    }
    cmd := BuildSemgrepScan(params, scanId, toolName);
  }

  method BuildSemgrepScan(params: seq<ToolParameter>, scanId: string, toolName: string) returns (cmd: seq<string>)
    ensures cmd == SemgrepScan(params, scanId, toolName)
  {
    cmd := ["semgrep", "scan", "--json", "-o", ReportFile(scanId, toolName, "semgrep_results.json"), SourceDir(scanId, toolName)];
    var configProvided := exists i :: 0 <= i < |params| && params[i].flag == "--config";
    if !configProvided {
      cmd := cmd + ["--config", "auto"];
    }
    cmd := EmitParameters(cmd, SemgrepPolicy, params);
  }

  /** Whether semgrep's `gitURL` clone went through: a string URL was given
      and git exited with 0. */
  predicate SemgrepCloned(params: seq<ToolParameter>, scanId: string, toolName: string, git: Git)
  {
    && RepoUrl(params, "gitURL").Some?
    && var run := git(CloneCommand(RepoUrl(params, "gitURL").value, SourceDir(scanId, toolName)));
       run.CloneExited? && run.returnCode == 0
  }

  /** semgrep never raises: without a string `gitURL`, or when the clone
      fails, it runs a script that exits with 1; after a successful clone it
      scans the checkout. */
  lemma SemgrepScansOnlyClones(params: seq<ToolParameter>, scanId: string, toolName: string, git: Git)
    ensures RepoUrl(params, "gitURL").None? ==> SemgrepCommand(params, scanId, toolName, git) == ErrorCommand(SemgrepMissingUrl)
    ensures SemgrepCloned(params, scanId, toolName, git) ==> SemgrepCommand(params, scanId, toolName, git) == SemgrepScan(params, scanId, toolName)
    ensures !SemgrepCloned(params, scanId, toolName, git) ==> IsFailureScript(SemgrepCommand(params, scanId, toolName, git))
  {
    match RepoUrl(params, "gitURL")
    case None => ErrorCommandIsFailureScript(SemgrepMissingUrl);
    case Some(url) =>
      match git(CloneCommand(url, SourceDir(scanId, toolName)))
      case CloneRaised(msg) => ErrorCommandIsFailureScript("An unexpected error occurred during git clone: " + msg);
      case CloneExited(rc, stderr) =>
        if rc != 0 {
          ErrorCommandIsFailureScript(CloneFailureMessage(stderr));
        }
  }

  /** The scan of a checkout reports to `semgrep_results.json`, scans the
      checkout, and adds `--config auto` exactly when no `--config`
      parameter was given. */
  lemma SemgrepConfigDefault(params: seq<ToolParameter>, scanId: string, toolName: string)
    ensures var cmd := SemgrepScan(params, scanId, toolName);
      && |cmd| >= 6
      && cmd[..6] == ["semgrep", "scan", "--json", "-o", ReportFile(scanId, toolName, "semgrep_results.json"), SourceDir(scanId, toolName)]
      && (!HasFlag(params, "--config") <==> (|cmd| >= 8 && cmd[6..8] == ["--config", "auto"] && cmd[8..] == ArgsFor(SemgrepPolicy, params)))
      && (HasFlag(params, "--config") ==> cmd[6..] == ArgsFor(SemgrepPolicy, params))
  {
    var cmd := SemgrepScan(params, scanId, toolName);
    var args := ArgsFor(SemgrepPolicy, params);
    if HasFlag(params, "--config") {
      assert |cmd| == 6 + |args|;
    }
  }

  // --- trufflehog, gitleaks, yara ---------------------------------------

  const TrufflehogMissingUrl := "Trufflehog scan requires a 'repoURL' parameter with a valid Git repository URL."
  const GitleaksMissingUrl := "Gitleaks scan requires a repoURL parameter."
  const YaraMissingUrl := "Yara scan requires a repoURL parameter"

  /** The shared shape of the three `_clone_repo` users: a missing URL
      becomes a failing script, a git that cannot start is an error, a
      failed clone is the clone's failing script, and a checkout is scanned
      with `scan(sourceDir)`. */
  function CloneThen(params: seq<ToolParameter>, scanId: string, toolName: string, git: Git,
                     missing: string, scan: string -> seq<string>): Result<seq<string>>
  {
    match RepoUrl(params, "repoURL")
    case None => Success(ErrorCommand(missing))
    case Some(url) =>
      match CloneRepo(url, scanId, toolName, git)
      case Failure(e) => Failure(e)
      case Success(checkout) =>
        if checkout.errorCommand.Some? then Success(checkout.errorCommand.value)
        else Success(scan(checkout.sourceDir.value))
  }

  function TrufflehogScan(params: seq<ToolParameter>): string -> seq<string>
  {
    sourceDir => ["trufflehog", "filesystem", sourceDir, "--json"] + ArgsFor(TrufflehogPolicy, params)
  }

  function GitleaksScan(params: seq<ToolParameter>, scanId: string, toolName: string): string -> seq<string>
  {
    sourceDir => ["gitleaks", "detect", "--source", sourceDir, "-r", ReportFile(scanId, toolName, "gitleaks_results.json"), "-f", "json"]
                 + ArgsFor(RepoPolicy, params)
  }

  const YaraRules := "/opt/yara-rules/index.yar"

  function YaraScan(params: seq<ToolParameter>): string -> seq<string>
  {
    sourceDir => ["yara", "-r", YaraRules, sourceDir] + ArgsFor(RepoPolicy, params)
  }

  function TrufflehogCommand(params: seq<ToolParameter>, scanId: string, toolName: string, git: Git): Result<seq<string>>
  {
    CloneThen(params, scanId, toolName, git, TrufflehogMissingUrl, TrufflehogScan(params))
  }

  function GitleaksCommand(params: seq<ToolParameter>, scanId: string, toolName: string, git: Git): Result<seq<string>>
  {
    CloneThen(params, scanId, toolName, git, GitleaksMissingUrl, GitleaksScan(params, scanId, toolName))
  }

  function YaraCommand(params: seq<ToolParameter>, scanId: string, toolName: string, git: Git): Result<seq<string>>
  {
    CloneThen(params, scanId, toolName, git, YaraMissingUrl, YaraScan(params))
  }

  method BuildTrufflehog(params: seq<ToolParameter>, scanId: string, toolName: string, git: Git) returns (r: Result<seq<string>>)
    ensures r == TrufflehogCommand(params, scanId, toolName, git)
  {
    var urlParam := FindParam(params, "repoURL");
    if urlParam.None? || !urlParam.value.value.Str? {
      return Success(ErrorCommand(TrufflehogMissingUrl));
    }
    var checkout :- CloneRepo(urlParam.value.value.s, scanId, toolName, git);
    if checkout.errorCommand.Some? {
      return Success(checkout.errorCommand.value);
    }
    var cmd := ["trufflehog", "filesystem", checkout.sourceDir.value, "--json"];
    cmd := EmitParameters(cmd, TrufflehogPolicy, params);
    r := Success(cmd);
  }

  method BuildGitleaks(params: seq<ToolParameter>, scanId: string, toolName: string, git: Git) returns (r: Result<seq<string>>)
    ensures r == GitleaksCommand(params, scanId, toolName, git)
  {
    var urlParam := FindParam(params, "repoURL");
    if urlParam.None? || !urlParam.value.value.Str? {
      return Success(ErrorCommand(GitleaksMissingUrl));
    }
    var checkout :- CloneRepo(urlParam.value.value.s, scanId, toolName, git);
    if checkout.errorCommand.Some? {
      return Success(checkout.errorCommand.value);
    }
    var json := ReportFile(scanId, toolName, "gitleaks_results.json");
    var cmd := ["gitleaks", "detect", "--source", checkout.sourceDir.value, "-r", json, "-f", "json"];
    cmd := EmitParameters(cmd, RepoPolicy, params);
    r := Success(cmd);
  }

  method BuildYara(params: seq<ToolParameter>, scanId: string, toolName: string, git: Git) returns (r: Result<seq<string>>)
    ensures r == YaraCommand(params, scanId, toolName, git)
  {
    var urlParam := FindParam(params, "repoURL");
    if urlParam.None? || !urlParam.value.value.Str? {
      return Success(ErrorCommand(YaraMissingUrl));
    }
    var checkout :- CloneRepo(urlParam.value.value.s, scanId, toolName, git);
    if checkout.errorCommand.Some? {
      return Success(checkout.errorCommand.value);
    }
    var cmd := ["yara", "-r", YaraRules, checkout.sourceDir.value];
    cmd := EmitParameters(cmd, RepoPolicy, params);
    r := Success(cmd);
  }

  /** A clone-based builder raises only when git cannot be started; a
      missing or non-string repository URL, or a failed clone, yields a
      script that exits with 1 instead, and a successful clone scans the
      checkout directory. */
  lemma CloneThenOutcomes(params: seq<ToolParameter>, scanId: string, toolName: string, git: Git,
                          missing: string, scan: string -> seq<string>)
    ensures RepoUrl(params, "repoURL").None? ==>
      CloneThen(params, scanId, toolName, git, missing, scan) == Success(ErrorCommand(missing))
    ensures CloneThen(params, scanId, toolName, git, missing, scan).Failure? <==>
      RepoUrl(params, "repoURL").Some?
      && git(CloneCommand(RepoUrl(params, "repoURL").value, SourceDir(scanId, toolName))).CloneRaised?
    ensures RepoUrl(params, "repoURL").Some? ==>
      var run := git(CloneCommand(RepoUrl(params, "repoURL").value, SourceDir(scanId, toolName)));
      var r := CloneThen(params, scanId, toolName, git, missing, scan);
      && (run.CloneExited? && run.returnCode != 0 ==> r.Success? && IsFailureScript(r.value))
      && (run.CloneExited? && run.returnCode == 0 ==> r == Success(scan(SourceDir(scanId, toolName))))
    ensures RepoUrl(params, "repoURL").None? ==> IsFailureScript(ErrorCommand(missing))
  {
    ErrorCommandIsFailureScript(missing);
  }

  /** trufflehog emits only switches: each argument after the fixed part is
      the flag of a parameter that takes no value, has a truthy value and
      is not `repoURL`, `--regex` or `--entropy`. */
  lemma TrufflehogOnlySwitches(params: seq<ToolParameter>, x: string)
    requires x in ArgsFor(TrufflehogPolicy, params)
    ensures exists p :: (p in params && p.flag == x && !p.requiresValue && Truthy(p.value)
                         && x != "repoURL" && x != "--regex" && x != "--entropy")
  {
    FlagsOnlyArgs(TrufflehogPolicy, params, x);
  }

  // --- httpx -----------------------------------------------------------

  /** httpx's URL: `http://` is prefixed unless the target starts with
      `http://` or `https://` exactly (letter case matters here). */
  function HttpxUrl(target: string): string
  {
    if StartsWith(target, "http://") || StartsWith(target, "https://") then target else "http://" + target
  }

  lemma HttpxUrlNormalised(target: string)
    ensures StartsWith(HttpxUrl(target), "http://") || StartsWith(HttpxUrl(target), "https://")
    ensures HttpxUrl(HttpxUrl(target)) == HttpxUrl(target)
  {
  }

  function HttpxScript(target: string, params: seq<ToolParameter>): string
  {
    "echo " + ShellQuote(target) + " | " + Join(" ", ["httpx"] + ArgsFor(PlainPolicy, params) + [HttpxUrl(target)])
  }

  function HttpxCommand(target: string, params: seq<ToolParameter>): seq<string>
  {
    ["sh", "-c", HttpxScript(target, params)]
  }

  method BuildHttpx(target: string, params: seq<ToolParameter>) returns (cmd: seq<string>)
    ensures cmd == HttpxCommand(target, params)
    ensures |cmd| == 3 && cmd[0] == "sh" && cmd[1] == "-c"
    ensures StartsWith(cmd[2], "echo " + ShellQuote(target) + " | httpx")
  {
    var baseCmd := EmitParameters(["httpx"], PlainPolicy, params);
    var normalizedTarget := if StartsWith(target, "http://") || StartsWith(target, "https://") then target else "http://" + target;
    baseCmd := baseCmd + [normalizedTarget];
    var script := "echo " + ShellQuote(target) + " | " + Join(" ", baseCmd);
    cmd := ["sh", "-c", script];
    HttpxScriptPipesTarget(target, params);
  }

  /** The script echoes the shell-quoted target into httpx. */
  lemma HttpxScriptPipesTarget(target: string, params: seq<ToolParameter>)
    ensures StartsWith(HttpxScript(target, params), "echo " + ShellQuote(target) + " | httpx")
  {
    var words := ["httpx"] + ArgsFor(PlainPolicy, params) + [HttpxUrl(target)];
    var prefix := "echo " + ShellQuote(target) + " | httpx";
    var rest := " " + Join(" ", words[1..]);
    assert Join(" ", words) == "httpx" + rest;
    assert HttpxScript(target, params) == prefix + rest;
    StartsWithConcat(prefix, rest);
  }

  // ---------------------------------------------------------------------
  // Dispatch from a registered builder to its command.
  // ---------------------------------------------------------------------

  /** The command a builder produces, or the error it raises. */
  function CommandFor(b: Builder, target: string, params: seq<ToolParameter>, scanId: string, toolName: string, git: Git): Result<seq<string>>
  {
    match b
    case Nuclei => Success(NucleiCommand(target, params, scanId, toolName))
    case Nikto => Success(NiktoCommand(target, params, scanId, toolName))
    case Sqlmap => Success(SqlmapCommand(target, params, scanId, toolName))
    case Trivy => TrivyCommand(params, scanId, toolName)
    case Lynis => Success(LynisCommand(params, scanId, toolName))
    case Wpscan => Success(WpscanCommand(target, params, scanId, toolName))
    case Semgrep => Success(SemgrepCommand(params, scanId, toolName, git))
    case Trufflehog => TrufflehogCommand(params, scanId, toolName, git)
    case Gitleaks => GitleaksCommand(params, scanId, toolName, git)
    case Yara => YaraCommand(params, scanId, toolName, git)
    case Httpx => Success(HttpxCommand(target, params))
  }

  /** Only trivy (no string image) and the `_clone_repo` users (git
      cannot start) ever raise; every other builder returns a command for any input,
      the empty parameter list included. */
  lemma BuildersRaiseOnlyWhen(b: Builder, target: string, params: seq<ToolParameter>, scanId: string, toolName: string, git: Git)
    ensures CommandFor(b, target, params, scanId, toolName, git).Failure? <==>
      (b == Trivy && !(ImageName(params).Str? && ImageName(params).s != ""))
      || ((b == Trufflehog || b == Gitleaks || b == Yara)
          && RepoUrl(params, "repoURL").Some?
          && git(CloneCommand(RepoUrl(params, "repoURL").value, SourceDir(scanId, toolName))).CloneRaised?)
  {
    match b
    case Trivy => TrivyImageRequired(params, scanId, toolName);
    case Trufflehog => CloneThenOutcomes(params, scanId, toolName, git, TrufflehogMissingUrl, TrufflehogScan(params));
    case Gitleaks => CloneThenOutcomes(params, scanId, toolName, git, GitleaksMissingUrl, GitleaksScan(params, scanId, toolName));
    case Yara => CloneThenOutcomes(params, scanId, toolName, git, YaraMissingUrl, YaraScan(params));
    case _ =>
  }

  method BuildCommand(b: Builder, target: string, params: seq<ToolParameter>, scanId: string, toolName: string, git: Git)
    returns (r: Result<seq<string>>)
    ensures r == CommandFor(b, target, params, scanId, toolName, git)
  {
    match b {
      case Nuclei =>
        var cmd := BuildNuclei(target, params, scanId, toolName);
        r := Success(cmd);
      case Nikto =>
        var cmd := BuildNikto(target, params, scanId, toolName);
        r := Success(cmd);
      case Sqlmap =>
        var cmd := BuildSqlmap(target, params, scanId, toolName);
        r := Success(cmd);
      case Trivy =>
        r := BuildTrivy(params, scanId, toolName);
      case Lynis =>
        var cmd := BuildLynis(params, scanId, toolName);
        r := Success(cmd);
      case Wpscan =>
        var cmd := BuildWpscan(target, params, scanId, toolName);
        r := Success(cmd);
      case Semgrep =>
        var cmd := BuildSemgrep(params, scanId, toolName, git);
        r := Success(cmd);
      case Trufflehog =>
        r := BuildTrufflehog(params, scanId, toolName, git);
      case Gitleaks =>
        r := BuildGitleaks(params, scanId, toolName, git);
      case Yara =>
        r := BuildYara(params, scanId, toolName, git);
      case Httpx =>
        var cmd := BuildHttpx(target, params);
        r := Success(cmd);
    }
  }
}
