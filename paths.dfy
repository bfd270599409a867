/** `os.path.join` and `os.path.basename`, and the two formulas the source
    uses for a tool's output directory. */
module Paths {
  import opened Strings

  /** Two-argument `os.path.join`: an absolute second part replaces the
      first, otherwise a '/' is inserted unless the first part is empty or
      already ends in one. */
  function PathJoin(a: string, b: string): string
  {
    if b != [] && b[0] == '/' then b
    else if a == [] || a[|a| - 1] == '/' then a + b
    else a + "/" + b
  }

  predicate NoSlash(s: string)
  {
    forall k :: 0 <= k < |s| ==> s[k] != '/'
  }

  /** `os.path.basename`: what follows the last '/'. */
  function Basename(p: string): (r: string)
    ensures NoSlash(r) && EndsWith(p, r)
  {
    if p == [] || p[|p| - 1] == '/' then [] else Basename(p[..|p| - 1]) + [p[|p| - 1]]
  }

  lemma {:induction false} BasenameAfterSlash(prefix: string, name: string)
    requires prefix == [] || prefix[|prefix| - 1] == '/'
    requires NoSlash(name)
    ensures Basename(prefix + name) == name
    decreases |name|
  {
    if name != [] {
      var init := name[..|name| - 1];
      assert (prefix + name)[..|prefix + name| - 1] == prefix + init;
      BasenameAfterSlash(prefix, init);
      assert name == init + [name[|name| - 1]];
    } else {
      assert prefix + name == prefix;
    }
  }

  /** The file name of a joined path is the name that was joined on. */
  lemma BasenameOfJoin(dir: string, name: string)
    requires NoSlash(name)
    ensures Basename(PathJoin(dir, name)) == name
  {
    if dir == [] || dir[|dir| - 1] == '/' {
      BasenameAfterSlash(dir, name);
    } else {
      assert dir + "/" + name == (dir + "/") + name;
      BasenameAfterSlash(dir + "/", name);
    }
  }

  /** The executor's output directory, `os.path.join("/app", "outputs",
      scan_id, tool_name)`. */
  function OutputDir(scanId: string, toolName: string): string
  {
    PathJoin(PathJoin(PathJoin("/app", "outputs"), scanId), toolName)
  }

  /** The builders' output directory, the f-string
      `"/app/outputs/{scan_id}/{tool_name}"`. */
  function BuilderOutputDir(scanId: string, toolName: string): string
  {
    "/app/outputs/" + scanId + "/" + toolName
  }

  /** The builders and the executor name the same directory whenever the
      scan identifier and the tool name are non-empty and contain no '/',
      so the report a builder tells a tool to write is the file its
      post-processor looks for. */
  lemma OutputDirsAgree(scanId: string, toolName: string)
    requires scanId != [] && toolName != [] && NoSlash(scanId) && NoSlash(toolName)
    ensures OutputDir(scanId, toolName) == BuilderOutputDir(scanId, toolName)
  {
    assert PathJoin("/app", "outputs") == "/app/outputs";
    assert scanId[0] != '/' && toolName[0] != '/';
    assert PathJoin("/app/outputs", scanId) == "/app/outputs/" + scanId;
    var d := "/app/outputs/" + scanId;
    assert d[|d| - 1] == scanId[|scanId| - 1];
  }
}
