# MCP demonstration server: request routing, in Dafny

A model of the request-routing layer of `src/server.py`. This is a demonstration
server that uses the Model Context Protocol. The model covers four parts:

- **Tool catalogue.** `list_tools` returns five fixed tool descriptors. Each has a
  name, a description and a JSON-schema-shaped `inputSchema`.
- **Tool dispatcher.** `call_tool` routes a tool name and an argument dictionary
  through an `if name == ...` chain. It always answers with a single text item.
- **Resource list.** `list_resources` returns two fixed resources.
- **Resource reader.** `read_resource` routes a URI by its `file://` or
  `config://` prefix.

Everything in the modelled code is an expression over values, so the model is
written as datatypes, functions and lemmas. It uses no classes and no loops.

Module layout (one file each):

- `Wrappers`: `Option` and `Result`. `Err(message)` stands for a Python exception
  whose `str()` is `message`.
- `Strings`: the Python string operations the handlers use:
  - `startswith`;
  - `s[::-1]`;
  - `upper()` and `lower()`, on ASCII letters only;
  - `str(n)`, with a decimal parser as its inverse;
  - `s[:n]`;
  - `replace(old, new)`, written as `new.join(s.split(old))` and proved against
    `split`.
- `Arguments`: argument values and `dict.get`.
  - A value is either a string or "any other value". The other kind keeps its
    Python type name and its `str()` rendering.
  - Python's `None` is `Other("NoneType", "None")`. That is what `.get(key)`
    returns for a missing key.
- `Catalogue`: the data that `list_tools` returns, and its invariants.
- `Host`: everything the handlers get from outside the program, as parameters:
  - `eval`;
  - the HTTP client;
  - the JSON text that `get_system_info` builds;
  - opening, writing and reading files;
  - the environment that `os.getenv` reads;
  - `json.dumps`;
  - `transform`: what `process_data`'s operations do to a `data` value that is
    not a string.
- `Dispatch`: `call_tool` and each of its branches.
- `ToolProperties`: what `call_tool` promises its callers.
- `Resources`: `list_resources`, `read_resource` and their properties.

Behaviour that follows the code:

- Arguments are read with `.get` and the documented defaults. They are never
  checked against the schema.
- An `operation` that is not one of the four strings, including one that is not
  a string at all, takes the "Unknown operation" path. It never raises.
- `calculate` catches its own evaluation errors, so it never produces the
  catch-all `Error:` text.
- A missing `content` makes `write_file` write `None`. CPython's check of the
  argument names `None` by itself, so the answer is
  `Error: write() argument must be str, not None`.
- Only `FileNotFoundError` is caught in `read_resource`. Any other read failure
  escapes to the protocol layer: `ReadResource` returns `Err` for it.
- `str(uri).replace("file://", "")` deletes every occurrence of `file://`, not only
  the leading one. `FilePathDropsInnerPrefix` shows this for a concrete URI.

The code has no registries that reject duplicates, no schema validation of
arguments and no structured error kinds; neither does the model.

## Model

| member | source | states |
|---|---|---|
| `Catalogue.ListTools` | src/server.py:41-125 | exactly five tools are advertised, and no two share a name |
| `Catalogue.CatalogueWellFormed` | src/server.py:46-125 | every schema is an object schema whose required names are declared properties and whose property names are distinct; the clause that defaults lie within their enum holds trivially, since no property has both |
| `Catalogue.ListedNames` | tests/test_server.py:33-41 | the advertised names are calculate, fetch_url, get_system_info, process_data and write_file, in that order, so the three names the test checks are present |
| `Dispatch.AnswerText` | src/server.py:213-218 | the catch-all: a handler's text is passed through unchanged, and an exception is answered with `Error: ` followed by exactly its message |
| `Dispatch.CallTool` | src/server.py:128-218 | every call, failing or not, answers with exactly one text item; a name outside the chain is answered with `Unknown tool: <name>` |
| `Dispatch.RouteOf` | src/server.py:135-211 | a name selects a handler if and only if it is one of the five names the chain tests |
| `Dispatch.Calculate` | src/server.py:136-149 | `calculate` never raises; its text starts with `Result: ` when evaluation succeeds and with `Error calculating: ` when it fails |
| `Dispatch.FetchUrl` | src/server.py:151-160 | `fetch_url` fails exactly when the request fails, with the request's own message; otherwise its text starts with `Status: ` |
| `Dispatch.OperationResult` | src/server.py:179-188 | on string data the result is always computed; a failure can only come from a recognised operation applied to non-string data |
| `Dispatch.ProcessData` | src/server.py:175-193 | string data never fails; a result is always wrapped as `Operation '<op>' result: `; a failure is the operation's own |
| `Dispatch.WriteTypeError` | src/server.py:200 | writing `None` is refused with `write() argument must be str, not None`; another non-string value is named by its type |
| `Dispatch.WriteFile` | src/server.py:195-205 | `write_file` fails exactly when opening fails, the content is not a string, or writing fails; a missing content, once the file is open, fails naming `None`; success starts with `Successfully wrote ` |
| `Dispatch.Run` | src/server.py:135-211 | an unknown name is answered `Unknown tool: <name>`; only `fetch_url`, `process_data` and `write_file` can raise |
| `Dispatch.RoutesOfListedNames` | src/server.py:136-195 | each of the five advertised names selects its own branch of the chain |
| `Dispatch.ProcessDataKnown` | src/server.py:175-193 | with string data and one of the four operations, the answer is `Operation '<op>' result: ` followed by that operation applied to the data |
| `ToolProperties.RoutedIffListed` | src/server.py:135-211 | a name reaches a handler if and only if `list_tools` advertises it |
| `ToolProperties.OperationEnumIsRecognised` | src/server.py:98-188 | the enum advertised for `operation` is exactly the list of operations the handler recognises: reverse, uppercase, lowercase, count |
| `ToolProperties.FetchMethodDefaultIsDeclared` | src/server.py:151-156 | the schema declares `GET` as the default of `method`, and omitting `method` gives the same answer as passing that default |
| `ToolProperties.ReverseAnswer` | src/server.py:179-193 | `reverse` answers with exactly `Operation 'reverse' result: ` plus the reversed data, and reversing that part again restores the data |
| `ToolProperties.CountAnswer` | src/server.py:185-193 | `count` answers with the decimal numeral of the data's length in the same envelope, and parsing the numeral gives the length back |
| `ToolProperties.UppercaseAnswer` | src/server.py:181-193 | on ASCII data, `uppercase` answers with the upper-cased data: same length, no lower-case ASCII letter left, and each character equal to the original up to case |
| `ToolProperties.LowercaseAnswer` | src/server.py:183-193 | on ASCII data, `lowercase` answers with the lower-cased data: same length, no upper-case ASCII letter left, and each character equal to the original up to case |
| `ToolProperties.HelloUppercase` | tests/test_server.py:17-22 | upper-casing `hello` gives a non-empty answer whose text contains `HELLO` |
| `ToolProperties.UnknownOperationAnswer` | src/server.py:187-193 | any other operation, or one that is not a string, answers `Operation '<op>' result: Unknown operation: <op>`, whatever the data and the host |
| `ToolProperties.NoArgumentsAnswer` | src/server.py:175-193 | with neither argument given the answer is `Operation '' result: Unknown operation: ` |
| `ToolProperties.MissingArgumentsAreEmpty` | src/server.py:176-177 | a missing `data` or `operation` behaves exactly like the empty string |
| `ToolProperties.ProcessStringDataNeverFails` | src/server.py:175-193 | on string data, `process_data` never raises, and its text always starts with `Operation '` |
| `ToolProperties.UnknownToolAnswer` | src/server.py:207-211 | a name that is not advertised is answered with the single item `Unknown tool: <name>` |
| `ToolProperties.CalculateAnswer` | src/server.py:136-149 | `calculate` answers `Result: <value>` or `Error calculating: <message>`, and never the catch-all `Error:` text |
| `ToolProperties.FetchUrlAnswer` | src/server.py:151-160 | a response is shown as its status and a prefix of its body of length min(length of body, 1000); a failed request becomes `Error: <message>` |
| `ToolProperties.WriteFileAnswer` | src/server.py:195-218 | a failed open, content that is not a string, or a failed write becomes `Error: <message>`, the `TypeError` naming `None` for a missing content; otherwise the answer reports the content's length and the path |
| `ToolProperties.WriteFileReportsFailure` | src/server.py:195-218 | the answer starts with `Error: ` if and only if opening fails, the content is not a string, or writing fails |
| `ToolProperties.MissingContentAnswer` | src/server.py:196-218 | without `content`, once the file is open, the answer is `Error: write() argument must be str, not None` |
| `ToolProperties.FailuresComeFromHandlers` | src/server.py:213-218 | an exception inside a branch is answered with `Error: <message>`, and it can only come from the HTTP client, `process_data` on non-string data, or `write_file` |
| `Strings.Reverse` | src/server.py:180 | element k of `s[::-1]` is element length-1-k of `s`, and the length is kept |
| `Strings.ReverseInvolutive` | src/server.py:180 | reversing twice gives back the original string |
| `Strings.Upper` | src/server.py:182 | `upper()` on ASCII letters keeps the length, leaves no lower-case letter, keeps each character up to case and keeps every character that is not a lower-case letter |
| `Strings.Lower` | src/server.py:184 | `lower()` on ASCII letters, the mirror image of `Strings.Upper` |
| `Strings.UpperProperties` | src/server.py:182 | for the ASCII mapping of `Strings.Upper`, applying it again changes nothing, and the ASCII `lower()` after it equals the ASCII `lower()` alone |
| `Strings.LowerProperties` | src/server.py:184 | for the ASCII mapping of `Strings.Lower`, applying it again changes nothing, and the ASCII `upper()` after it equals the ASCII `upper()` alone |
| `Strings.NatToString` | src/server.py:186 | `str(n)` is a non-empty string of decimal digits with no leading zero |
| `Strings.ParseNatToString` | src/server.py:186 | parsing `str(n)` gives back `n` |
| `Strings.Take` | src/server.py:159 | `s[:n]` is a prefix of `s` whose length is min(length of s, n) |
| `Strings.ReplaceAll` | src/server.py:250 | `replace` leaves a string without the pattern unchanged |
| `Strings.SplitDeletesSeparators` | src/server.py:250 | the pieces of a split, glued together, are shorter than the string by one separator per cut |
| `Strings.JoinSplit` | src/server.py:250 | joining the pieces of a split with the separator restores the string |
| `Strings.SplitPiecesFree` | src/server.py:250 | no piece of a split contains the separator |
| `Strings.StripLeading` | src/server.py:250 | removing `sep` from `sep + t`, where `t` contains no `sep`, gives `t` |
| `Arguments.Get` | src/server.py:137-197 | `arguments.get(key, default)` gives a present key's value, whatever its type, and the default otherwise |
| `Host.Getenv` | src/server.py:259-261 | `os.getenv(key, default)` gives the environment's value when the variable is set, and the default otherwise |
| `Resources.ListResources` | src/server.py:221-239 | exactly two resources are listed, and their URIs are distinct |
| `Resources.SchemeOf` | src/server.py:249-265 | the file branch is taken if and only if the URI starts with `file://`; the config branch if and only if it starts with `config://` but not with `file://` |
| `Resources.FilePath` | src/server.py:250 | the path is shorter than the URI by seven characters for every `file://` removed, and a URI without `file://` is kept as it is |
| `Resources.FilePathDeletesEveryOccurrence` | src/server.py:250 | the file path is the URI cut at every `file://` and glued back together without it; no piece contains `file://`, and putting `file://` back between the pieces restores the URI |
| `Resources.FilePathOfPlainUri` | src/server.py:249-250 | `file://<path>`, where the path contains no `file://`, is routed to the file branch and reads exactly `<path>` |
| `Resources.FilePathDropsInnerPrefix` | src/server.py:250 | `file://a/file://b` reads the path `a/b`; the inner `file://` is deleted too |
| `Resources.ReadResource` | src/server.py:242-265 | an escaping error comes only from a file URI whose read failed other than by the file being missing, and carries that failure's message; a URI of any other kind always answers |
| `Resources.ReadResourceAnswer` | src/server.py:242-265 | a file URI returns the file's text, `File not found: <path>` when the file is missing, or an escaping error for any other read failure; a config URI returns the dumped config object; any other URI returns `Unknown resource: <uri>` |
| `Resources.ConfigObject` | src/server.py:258-262 | the config object has exactly the keys server_name, server_version and log_level, in that order; an unset environment variable gives `mcp-server-poc`, `0.1.0` or `INFO` respectively, and a set variable gives its value |
| `Resources.ExampleFilePath` | src/server.py:228-250 | the listed file URI takes the file branch and names the path `example.txt` |
| `Resources.ListedResourcesAreReadable` | src/server.py:226-263 | each listed resource is routed to a reader and not answered as unknown; the file resource reads `example.txt`, and the config resource answers with the config object |

## Left out

- `calculate`: Python's `eval` is not modelled. It is the host function `eval`, which gives `str()` of the value or the exception's message. Only the two answer formats are modelled.
- `fetch_url`: the network request, including its 10-second timeout, is the host function `request`. A timeout or connection failure is one of its `Err` outcomes. The status code is a natural number.
- `get_system_info`: the clock, the environment listing and `sys.version` are not modelled. The JSON text the branch returns is the host value `systemInfo`.
- Files: opening, writing and reading are host functions. The model does not track that opening a file for writing truncates it.
- `json.dumps`: the text that `read_resource` returns for `config://` is the host function `dumps` applied to the modelled object. Escaping and indentation are not modelled.
- `process_data` on a `data` value that is not a string: Python's duck typing is not modelled. A list, for instance, can be reversed and counted. This case is the host function `transform`.
- Strings.Upper: maps only the ASCII letters `a`-`z`. This is Python's `str.upper()` on ASCII text only. On other text Python's full Unicode case mapping differs: `é` becomes `É`, and `ß` becomes `SS`. The model leaves both unchanged.
- Strings.Lower: maps only the ASCII letters `A`-`Z`. This is Python's `str.lower()` on ASCII text only, for the same reason as Strings.Upper.
- UppercaseAnswer: stated for ASCII data only. On other data the model's answer differs from Python's, as for Strings.Upper.
- LowercaseAnswer: stated for ASCII data only, as for Strings.Lower.
- Exceptions: Python exception messages are supplied by the host, except the `TypeError` that writing a non-string raises. For `None` that message is modelled exactly. For another value it is named by Python's name for the value's type. Exceptions outside `Exception`, such as `KeyboardInterrupt`, are not modelled.
- URIs: `read_resource` receives a pydantic `AnyUrl`. Its normalisation, for example adding a trailing slash, is not modelled: the model takes `str(uri)` as given.
- Resources.ExampleFilePath: reads `example.txt` only under that simplification. If `str(AnyUrl("file://example.txt"))` adds a trailing slash, the program reads `example.txt/`.
- Resources.ListedResourcesAreReadable: its file-path clause rests on the same simplification as Resources.ExampleFilePath.
- Content kinds: `ImageContent` and `EmbeddedResource` are declared as possible answers, but the code never produces them.
- Logging, `load_dotenv`, `main`, the stdio transport and the uvloop bootstrap are process plumbing and are not modelled.
- `src/config.py`, `scripts/run_server.py` and `examples/example_client.py` are not part of this model.
- The protocol itself (message framing, session setup, how a Python exception escaping `read_resource` reaches the client) belongs to the external `mcp` library and is not part of this model.
