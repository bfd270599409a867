/** The records the scanner passes around (the Pydantic models of
    app/models.py), the dynamically typed parameter value, and the one
    validator the models declare. */
module Models {
  import opened Wrappers
  import opened Strings

  /** A parameter value as the JSON payload delivers it: absent (`None`), a
      boolean, an integer, a string or a list of strings. */
  datatype Value = Null | Bool(b: bool) | Int(i: int) | Str(s: string) | List(items: seq<string>)

  /** Python truthiness of a value (`if param.value:`). */
  predicate Truthy(v: Value)
  {
    match v
    case Null => false
    case Bool(b) => b
    case Int(i) => i != 0
    case Str(s) => s != ""
    case List(items) => items != []
  }

  /** `str(value)`. A list is shown the way Python prints a list of
      strings, each element in single quotes. */
  function Render(v: Value): string
  {
    match v
    case Null => "None"
    case Bool(b) => if b then "True" else "False"
    case Int(i) => IntToString(i)
    case Str(s) => s
    case List(items) => "[" + Join(", ", QuoteEach(items)) + "]"
  }

  function QuoteEach(items: seq<string>): (r: seq<string>)
    ensures |r| == |items|
  {
    if items == [] then [] else ["'" + items[0] + "'"] + QuoteEach(items[1..])
  }

  /** One command-line argument. `requiresValue` is declared
      `Optional[bool]`; every builder reads a missing one exactly as
      `false`, so it is a plain boolean here. */
  datatype ToolParameter = ToolParameter(
    flag: string,
    description: Option<string> := None,
    value: Value := Null,
    requiresValue: bool := false)

  /** One tool run inside a scan. */
  datatype ToolExecutionRequest = ToolExecutionRequest(
    name: string,
    parameters: seq<ToolParameter> := [])

  /** A scan as accepted: `target` has passed `ValidateTarget`. */
  datatype ScanRequest = ScanRequest(
    target: string,
    tools: seq<ToolExecutionRequest>,
    scanId: string)

  /** What one tool run reports. */
  datatype ToolOutput = ToolOutput(
    toolName: string,
    command: seq<string>,
    returnCode: int,
    stdout: string,
    stderr: string,
    outputFilePaths: seq<string>,
    success: bool)

  /** The final report of a scan. */
  datatype ScanResponse = ScanResponse(
    scanId: string,
    target: string,
    targetDomain: Option<string> := None,
    results: seq<ToolOutput>,
    message: string,
    status: string)

  const EmptyTargetMessage := "Target cannot be empty"

  /** The `target` validator: a target that is empty or only whitespace is
      rejected, any other is kept with its surrounding whitespace removed. */
  function ValidateTarget(v: string): (r: Result<string>)
    ensures r.Failure? <==> forall k :: 0 <= k < |v| ==> IsSpace(v[k])
    ensures r.Failure? ==> r.error == EmptyTargetMessage
    ensures r.Success? ==> r.value != [] && !IsSpace(r.value[0]) && !IsSpace(r.value[|r.value| - 1])
    ensures r.Success? ==>
      StripOffset(v) + |r.value| <= |v| && r.value == v[StripOffset(v)..StripOffset(v) + |r.value|]
  {
    StripCharacterised(v);
    if v == "" || Strip(v) == "" then Failure(EmptyTargetMessage) else Success(Strip(v))
  }

  /** Validation is idempotent: a target that was accepted is accepted
      again unchanged. */
  lemma ValidateTargetIdempotent(v: string)
    requires ValidateTarget(v).Success?
    ensures ValidateTarget(ValidateTarget(v).value) == ValidateTarget(v)
  {
    var t := Strip(v);
    StripIdempotent(v);
    StripCharacterised(t);
  }

  /** Building a request record: the target goes through the validator,
      the other fields are taken as given. */
  function ParseScanRequest(target: string, tools: seq<ToolExecutionRequest>, scanId: string): (r: Result<ScanRequest>)
    ensures r.Success? <==> ValidateTarget(target).Success?
    ensures r.Success? ==>
      r.value.target == ValidateTarget(target).value && r.value.tools == tools && r.value.scanId == scanId
    ensures r.Failure? ==> r.error == EmptyTargetMessage
  {
    match ValidateTarget(target)
    case Failure(e) => Failure(e)
    case Success(t) => Success(ScanRequest(t, tools, scanId))
  }
}
