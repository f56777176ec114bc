/** What the handlers of `src/server.py` obtain from outside the program:
    Python's `eval`, an HTTP client, the clock and the interpreter, the file
    system, the process environment, `json.dumps`, and the string operations
    of `process_data` applied to data that is not a string. Each is a parameter
    of the model; an `Err` or `Some(message)` outcome is an exception that
    the Python code would see, carrying its `str()`. */
module Host {
  import opened Wrappers
  import opened Arguments

  /** The two fields of an `httpx` response that the server reads. */
  datatype Response = Response(statusCode: nat, text: string)

  /** The outcome of opening and reading a file for `read_resource`. */
  datatype FileRead =
    | Contents(text: string)   // the file's text
    | FileNotFound             // `FileNotFoundError`
    | ReadFailed(message: string)  // any other exception

  datatype Host = Host(
    /** `eval(expression, {"__builtins__": {}}, {})`: `str()` of the value,
        or the exception it raised. */
    eval: Value -> Result<string, string>,
    /** `client.request(method, url, timeout=10.0)` with the method first;
        timeouts and connection failures are `Err`. */
    request: (Value, Value) -> Result<Response, string>,
    /** `json.dumps(info, indent=2)` of what `get_system_info` gathers. */
    systemInfo: string,
    /** `aiofiles.open(filepath, "w")`: `None` when the file is open. */
    open: Value -> Option<string>,
    /** `f.write(content)` on the opened file (and closing it). */
    write: (Value, string) -> Option<string>,
    /** `data[::-1]`, `data.upper()`, `data.lower()` or `str(len(data))` on a
        `data` argument that is not a string (a list, say, can be reversed). */
    transform: (string, Value) -> Result<string, string>,
    /** Reading a file with `aiofiles.open(filepath, "r")`. */
    readFile: string -> FileRead,
    /** The process environment that `os.getenv` reads. */
    env: map<string, string>,
    /** `json.dumps(obj, indent=2)` of a flat object of strings. */
    dumps: seq<(string, string)> -> string)

  /** `os.getenv(key, default)`. */
  function Getenv(host: Host, key: string, default: string): (v: string)
    ensures key in host.env ==> v == host.env[key]
    ensures key !in host.env ==> v == default
  {
    if key in host.env then host.env[key] else default
  }
}
