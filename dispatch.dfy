/** `call_tool`: routes a tool name and its argument dictionary to a handler
    and wraps what the handler produces, or the exception it raises, in a
    one-element list of text content. */
module Dispatch {
  import opened Wrappers
  import opened Strings
  import opened Arguments
  import opened Host

  /** The three content kinds that `call_tool` may return. */
  datatype Content =
    | TextContent(text: string)
    | ImageContent(data: string, mimeType: string)
    | EmbeddedResource(uri: string, text: string)

  /** The branch of the `if name == ...` chain that a tool name selects. */
  datatype Route = CalculateTool | FetchUrlTool | SystemInfoTool | ProcessDataTool | WriteFileTool | UnknownTool

  function RouteOf(name: string): (route: Route)
    ensures route != UnknownTool <==>
      name in {"calculate", "fetch_url", "get_system_info", "process_data", "write_file"}
  {
    if name == "calculate" then CalculateTool
    else if name == "fetch_url" then FetchUrlTool
    else if name == "get_system_info" then SystemInfoTool
    else if name == "process_data" then ProcessDataTool
    else if name == "write_file" then WriteFileTool
    else UnknownTool
  }

  // ---------------------------------------------------------------------
  // The handlers. `Ok(text)` is the text a branch returns; `Err(message)`
  // is an exception escaping it, which the catch-all of CallTool wraps.

  /** `calculate`: its own `try` turns an evaluation failure into text, so
      this branch never raises. */
  function Calculate(args: Arguments, host: Host): (r: Result<string, string>)
    ensures r.Ok?
    ensures host.eval(Get(args, "expression", Str(""))).Ok? ==> StartsWith(r.value, "Result: ")
    ensures host.eval(Get(args, "expression", Str(""))).Err? ==> StartsWith(r.value, "Error calculating: ")
  {
    match host.eval(Get(args, "expression", Str("")))
    case Ok(value) => Ok("Result: " + value)
    case Err(message) => Ok("Error calculating: " + message)
  }

  /** How many characters of the response body `fetch_url` shows. */
  const ShownBody: nat := 1000

  /** `fetch_url`: `url` defaults to `None`, `method` to `"GET"`. */
  function FetchUrl(args: Arguments, host: Host): (r: Result<string, string>)
    ensures r.Err? <==> host.request(Get(args, "method", Str("GET")), Get(args, "url", PyNone)).Err?
    ensures r.Err? ==> host.request(Get(args, "method", Str("GET")), Get(args, "url", PyNone)) == Err(r.error)
    ensures r.Ok? ==> StartsWith(r.value, "Status: ")
  {
    match host.request(Get(args, "method", Str("GET")), Get(args, "url", PyNone))
    case Ok(response) =>
      Ok("Status: " + NatToString(response.statusCode) + "\nContent:\n" + Take(response.text, ShownBody))
    case Err(message) => Err(message)
  }

  /** `get_system_info`: the JSON text the host renders. */
  function SystemInfo(host: Host): Result<string, string>
  {
    Ok(host.systemInfo)
  }

  /** The operations `process_data` recognises, in the order it tests them. */
  const Operations: seq<string> := ["reverse", "uppercase", "lowercase", "count"]

  predicate IsKnownOperation(operation: Value)
  {
    operation.Str? && operation.s in Operations
  }

  /** A recognised operation applied to string data. */
  function StringOperation(operation: string, data: string): string
    requires operation in Operations
  {
    if operation == "reverse" then Reverse(data)
    else if operation == "uppercase" then Upper(data)
    else if operation == "lowercase" then Lower(data)
    else NatToString(|data|)
  }

  /** The `result` variable of the `process_data` branch. Equality with a
      string literal fails for a value that is not a string, so such an
      operation takes the "Unknown operation" path. */
  function OperationResult(operation: Value, data: Value, host: Host): (r: Result<string, string>)
    ensures data.Str? ==> r.Ok?
    ensures r.Err? ==> IsKnownOperation(operation) && data.Other? && host.transform(operation.s, data) == r
  {
    if IsKnownOperation(operation) then
      match data
      case Str(d) => Ok(StringOperation(operation.s, d))
      case Other(_, _) => host.transform(operation.s, data)
    else Ok("Unknown operation: " + Render(operation))
  }

  /** The text `process_data` wraps around its result. */
  function Envelope(operation: string, result: string): string
  {
    "Operation '" + operation + "' result: " + result
  }

  /** `process_data`: `data` and `operation` both default to `""`. */
  function ProcessData(args: Arguments, host: Host): (r: Result<string, string>)
    ensures Get(args, "data", Str("")).Str? ==> r.Ok?
    ensures r.Ok? ==> StartsWith(r.value, "Operation '" + Render(Get(args, "operation", Str(""))) + "' result: ")
    ensures r.Err? ==> OperationResult(Get(args, "operation", Str("")), Get(args, "data", Str("")), host) == r
  {
    var data := Get(args, "data", Str(""));
    var operation := Get(args, "operation", Str(""));
    match OperationResult(operation, data, host)
    case Ok(result) => Ok(Envelope(Render(operation), result))
    case Err(message) => Err(message)
  }

  /** The message of the `TypeError` a text file's `write` raises for a
      value that is not a string. CPython's argument check names `None`
      by itself and any other value by the name of its type. */
  function WriteTypeError(content: Value): (message: string)
    requires content.Other?
    ensures content == PyNone ==> message == "write() argument must be str, not None"
    ensures content.typeName != "NoneType" ==> message == "write() argument must be str, not " + content.typeName
  {
    "write() argument must be str, not " + (if content.typeName == "NoneType" then "None" else content.typeName)
  }

  /** `write_file`: `filepath` and `content` default to `None`; the file is
      opened first, then written. */
  function WriteFile(args: Arguments, host: Host): (r: Result<string, string>)
    ensures var path := Get(args, "filepath", PyNone);
      var content := Get(args, "content", PyNone);
      r.Err? <==> host.open(path).Some? || content.Other? || host.write(path, content.s).Some?
    ensures "content" !in args && host.open(Get(args, "filepath", PyNone)).None? ==>
      r == Err("write() argument must be str, not None")
    ensures r.Ok? ==> StartsWith(r.value, "Successfully wrote ")
  {
    var filepath := Get(args, "filepath", PyNone);
    var content := Get(args, "content", PyNone);
    match host.open(filepath)
    case Some(message) => Err(message)
    case None =>
      match content
      case Other(_, _) => Err(WriteTypeError(content))
      case Str(c) =>
        match host.write(filepath, c)
        case Some(message) => Err(message)
        case None =>
          Ok("Successfully wrote " + NatToString(|c|) + " characters to " + Render(filepath))
  }

  /** The body of the outer `try`. */
  function Run(name: string, args: Arguments, host: Host): (r: Result<string, string>)
    ensures RouteOf(name) == UnknownTool ==> r == Ok("Unknown tool: " + name)
    ensures r.Err? ==> RouteOf(name) in {FetchUrlTool, ProcessDataTool, WriteFileTool}
  {
    match RouteOf(name)
    case CalculateTool => Calculate(args, host)
    case FetchUrlTool => FetchUrl(args, host)
    case SystemInfoTool => SystemInfo(host)
    case ProcessDataTool => ProcessData(args, host)
    case WriteFileTool => WriteFile(args, host)
    case UnknownTool => Ok("Unknown tool: " + name)
  }

  /** The catch-all of `call_tool`: an exception escaping a branch is
      answered with `Error: <message>`. */
  function AnswerText(outcome: Result<string, string>): (text: string)
    ensures outcome.Ok? ==> text == outcome.value
    ensures outcome.Err? ==> StartsWith(text, "Error: ") && text[7..] == outcome.error
  {
    match outcome
    case Ok(text) => text
    case Err(message) => "Error: " + message
  }

  /** `call_tool(name, arguments)`: every path, the failing ones included,
      answers with exactly one text item; an unknown name is answered, not
      raised. */
  function CallTool(name: string, args: Arguments, host: Host): (r: seq<Content>)
    ensures |r| == 1 && r[0].TextContent?
    ensures RouteOf(name) == UnknownTool ==> r == [TextContent("Unknown tool: " + name)]
  {
    [TextContent(AnswerText(Run(name, args, host)))]
  }

  /** Each advertised name selects its own branch. */
  lemma RoutesOfListedNames()
    ensures RouteOf("calculate") == CalculateTool
    ensures RouteOf("fetch_url") == FetchUrlTool
    ensures RouteOf("get_system_info") == SystemInfoTool
    ensures RouteOf("process_data") == ProcessDataTool
    ensures RouteOf("write_file") == WriteFileTool
  {
    assert "fetch_url"[0] != "calculate"[0];
    assert "get_system_info"[0] != "calculate"[0] && "get_system_info"[0] != "fetch_url"[0];
    assert "process_data"[0] !in {"calculate"[0], "fetch_url"[0], "get_system_info"[0]};
    assert "write_file"[0] !in {"calculate"[0], "fetch_url"[0], "get_system_info"[0], "process_data"[0]};
  }

  /** `process_data` with string data and a recognised operation. */
  lemma ProcessDataKnown(args: Arguments, host: Host, op: string, d: string)
    requires Get(args, "data", Str("")) == Str(d)
    requires Get(args, "operation", Str("")) == Str(op)
    requires op in Operations
    ensures CallTool("process_data", args, host) == [TextContent(Envelope(op, StringOperation(op, d)))]
  {
    RoutesOfListedNames();
  }

  /** Each advertised name is answered by its own handler, through the
      catch-all. */
  lemma CallToolBranches(args: Arguments, host: Host)
    ensures CallTool("calculate", args, host) == [TextContent(AnswerText(Calculate(args, host)))]
    ensures CallTool("fetch_url", args, host) == [TextContent(AnswerText(FetchUrl(args, host)))]
    ensures CallTool("get_system_info", args, host) == [TextContent(AnswerText(SystemInfo(host)))]
    ensures CallTool("process_data", args, host) == [TextContent(AnswerText(ProcessData(args, host)))]
    ensures CallTool("write_file", args, host) == [TextContent(AnswerText(WriteFile(args, host)))]
  {
    RoutesOfListedNames();
  }

  /** The four outcomes of `write_file`. */
  lemma WriteFileOutcome(args: Arguments, host: Host)
    ensures var path := Get(args, "filepath", PyNone);
      var content := Get(args, "content", PyNone);
      if host.open(path).Some? then WriteFile(args, host) == Err(host.open(path).value)
      else if content.Other? then WriteFile(args, host) == Err(WriteTypeError(content))
      else if host.write(path, content.s).Some? then WriteFile(args, host) == Err(host.write(path, content.s).value)
      else WriteFile(args, host) == Ok("Successfully wrote " + NatToString(|content.s|) + " characters to " + Render(path))
  {
  }
}
