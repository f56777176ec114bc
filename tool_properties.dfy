/** What `call_tool` promises its callers, stated over the model of the
    dispatcher and the catalogue. */
module ToolProperties {
  import opened Wrappers
  import opened Strings
  import opened Arguments
  import opened Host
  import opened Dispatch
  import Catalogue

  // ---------------------------------------------------------------------
  // Catalogue and dispatcher agree

  /** A name reaches a handler exactly when `list_tools` advertises it. */
  lemma RoutedIffListed(name: string)
    ensures RouteOf(name) != UnknownTool <==> name in Catalogue.ToolNames(Catalogue.ListTools())
  {
    Catalogue.ListedNames();
  }

  /** The `enum` advertised for `process_data`'s `operation` is exactly the
      list of operations the handler recognises. */
  lemma OperationEnumIsRecognised()
    ensures var t := Catalogue.ListTools()[3];
      && t.name == "process_data" && RouteOf(t.name) == ProcessDataTool
      && t.inputSchema.properties[1].0 == "operation"
      && t.inputSchema.properties[1].1.choices == Some(Operations)
  {
    RoutesOfListedNames();
  }

  /** Leaving out `method` is the same as passing the default the
      catalogue declares for it. */
  lemma FetchMethodDefaultIsDeclared(args: Arguments, host: Host)
    requires "method" !in args
    ensures var t := Catalogue.ListTools()[1];
      && t.name == "fetch_url"
      && t.inputSchema.properties[1].0 == "method"
      && t.inputSchema.properties[1].1.default == Some("GET")
      && CallTool(t.name, args, host) == CallTool(t.name, args["method" := Str("GET")], host)
  {
    RoutesOfListedNames();
  }

  // ---------------------------------------------------------------------
  // process_data

  /** `reverse` answers with the reversed data, and reversing that part
      again restores the data. */
  lemma ReverseAnswer(args: Arguments, host: Host, d: string)
    requires Get(args, "data", Str("")) == Str(d)
    requires Get(args, "operation", Str("")) == Str("reverse")
    ensures CallTool("process_data", args, host) == [TextContent(Envelope("reverse", Reverse(d)))]
    ensures Reverse(Reverse(d)) == d
  {
    ProcessDataKnown(args, host, "reverse", d);
    ReverseInvolutive(d);
  }

  /** `count` answers with the decimal numeral of the data's length. */
  lemma CountAnswer(args: Arguments, host: Host, d: string)
    requires Get(args, "data", Str("")) == Str(d)
    requires Get(args, "operation", Str("")) == Str("count")
    ensures CallTool("process_data", args, host) == [TextContent(Envelope("count", NatToString(|d|)))]
    ensures ParseDecimal(NatToString(|d|)) == |d|
  {
    ProcessDataKnown(args, host, "count", d);
    ParseNatToString(|d|);
  }

  /** `uppercase` on ASCII data answers with the data upper-cased: same
      length, no lower-case letter left, every other character unchanged. */
  lemma UppercaseAnswer(args: Arguments, host: Host, d: string)
    requires Get(args, "data", Str("")) == Str(d) && IsAscii(d)
    requires Get(args, "operation", Str("")) == Str("uppercase")
    ensures CallTool("process_data", args, host) == [TextContent(Envelope("uppercase", Upper(d)))]
    ensures |Upper(d)| == |d|
    ensures forall k :: 0 <= k < |d| ==> !IsAsciiLower(Upper(d)[k])
    ensures forall k :: 0 <= k < |d| ==> LowerChar(Upper(d)[k]) == LowerChar(d[k])
  {
    ProcessDataKnown(args, host, "uppercase", d);
    UpperProperties(d);
  }

  /** `lowercase` on ASCII data answers with the data lower-cased. */
  lemma LowercaseAnswer(args: Arguments, host: Host, d: string)
    requires Get(args, "data", Str("")) == Str(d) && IsAscii(d)
    requires Get(args, "operation", Str("")) == Str("lowercase")
    ensures CallTool("process_data", args, host) == [TextContent(Envelope("lowercase", Lower(d)))]
    ensures |Lower(d)| == |d|
    ensures forall k :: 0 <= k < |d| ==> !IsAsciiUpper(Lower(d)[k])
    ensures forall k :: 0 <= k < |d| ==> UpperChar(Lower(d)[k]) == UpperChar(d[k])
  {
    ProcessDataKnown(args, host, "lowercase", d);
    LowerProperties(d);
  }

  /** The unit test's call: upper-casing "hello" answers with text that
      contains "HELLO". */
  lemma HelloUppercase(host: Host)
    ensures var r := CallTool("process_data", map["data" := Str("hello"), "operation" := Str("uppercase")], host);
      |r| > 0 && Contains(r[0].text, "HELLO")
  {
    var args := map["data" := Str("hello"), "operation" := Str("uppercase")];
    assert Upper("hello") == "HELLO";
    assert IsAscii("hello");
    UppercaseAnswer(args, host, "hello");
    SuffixContained("Operation '" + "uppercase" + "' result: ", "HELLO");
  }

  /** An operation outside the four, or one that is not a string, is
      answered as unknown whatever the data and the host are. */
  lemma UnknownOperationAnswer(args: Arguments, host: Host)
    requires !IsKnownOperation(Get(args, "operation", Str("")))
    ensures var op := Render(Get(args, "operation", Str("")));
      CallTool("process_data", args, host) == [TextContent(Envelope(op, "Unknown operation: " + op))]
  {
    CallToolBranches(args, host);
  }

  /** With neither `data` nor `operation` given, the empty operation is
      unknown. */
  lemma NoArgumentsAnswer(host: Host)
    ensures CallTool("process_data", map[], host) == [TextContent(Envelope("", "Unknown operation: "))]
  {
    var args: Arguments := map[];
    assert Get(args, "operation", Str("")) == Str("");
    UnknownOperationAnswer(args, host);
    assert Render(Str("")) == "";
    assert "Unknown operation: " + "" == "Unknown operation: ";
  }

  /** A missing `data` or `operation` behaves as the empty string. */
  lemma MissingArgumentsAreEmpty(args: Arguments, host: Host)
    ensures "data" !in args ==>
      CallTool("process_data", args, host) == CallTool("process_data", args["data" := Str("")], host)
    ensures "operation" !in args ==>
      CallTool("process_data", args, host) == CallTool("process_data", args["operation" := Str("")], host)
  {
    CallToolBranches(args, host);
    if "data" !in args {
      var given := args["data" := Str("")];
      assert Get(given, "data", Str("")) == Get(args, "data", Str(""));
      assert Get(given, "operation", Str("")) == Get(args, "operation", Str(""));
      assert ProcessData(given, host) == ProcessData(args, host);
      CallToolBranches(given, host);
    }
    if "operation" !in args {
      var given := args["operation" := Str("")];
      assert Get(given, "data", Str("")) == Get(args, "data", Str(""));
      assert Get(given, "operation", Str("")) == Get(args, "operation", Str(""));
      assert ProcessData(given, host) == ProcessData(args, host);
      CallToolBranches(given, host);
    }
  }

  /** On string data `process_data` never raises: its text is always the
      `Operation '...' result: ...` envelope, never an `Error:` text. */
  lemma ProcessStringDataNeverFails(args: Arguments, host: Host)
    requires Get(args, "data", Str("")).Str?
    ensures ProcessData(args, host).Ok?
    ensures StartsWith(CallTool("process_data", args, host)[0].text, "Operation '")
  {
  }

  // ---------------------------------------------------------------------
  // The other handlers and the catch-all

  /** An unknown name is answered with one text item naming it. */
  lemma UnknownToolAnswer(name: string, args: Arguments, host: Host)
    requires name !in Catalogue.ToolNames(Catalogue.ListTools())
    ensures CallTool(name, args, host) == [TextContent("Unknown tool: " + name)]
  {
    RoutedIffListed(name);
  }

  /** `calculate`'s own handler catches evaluation failures, so its answer
      is never the catch-all `Error:` text. */
  lemma CalculateAnswer(args: Arguments, host: Host)
    ensures var e := host.eval(Get(args, "expression", Str("")));
      CallTool("calculate", args, host)
        == [TextContent(if e.Ok? then "Result: " + e.value else "Error calculating: " + e.error)]
    ensures !StartsWith(CallTool("calculate", args, host)[0].text, "Error: ")
  {
    RoutesOfListedNames();
    var t := CallTool("calculate", args, host)[0].text;
    if host.eval(Get(args, "expression", Str(""))).Ok? {
      assert t[0] != "Error: "[0];
    } else {
      assert t[5] != "Error: "[5];
    }
  }

  /** `fetch_url` shows the status and at most 1000 leading characters of
      the body; a failed request becomes `Error: <message>`. */
  lemma FetchUrlAnswer(args: Arguments, host: Host)
    ensures var outcome := host.request(Get(args, "method", Str("GET")), Get(args, "url", PyNone));
      match outcome
      case Ok(response) =>
        exists shown ::
          && CallTool("fetch_url", args, host)
             == [TextContent("Status: " + NatToString(response.statusCode) + "\nContent:\n" + shown)]
          && shown <= response.text
          && |shown| == if |response.text| < 1000 then |response.text| else 1000
      case Err(message) => CallTool("fetch_url", args, host) == [TextContent("Error: " + message)]
  {
    RoutesOfListedNames();
    var outcome := host.request(Get(args, "method", Str("GET")), Get(args, "url", PyNone));
    if outcome.Ok? {
      var shown := Take(outcome.value.text, ShownBody);
      assert CallTool("fetch_url", args, host)
        == [TextContent("Status: " + NatToString(outcome.value.statusCode) + "\nContent:\n" + shown)];
    }
  }

  /** `write_file` reports the number of characters written and the path;
      a failed open, content that is not a string, or a failed write
      becomes `Error: <message>`. */
  lemma WriteFileAnswer(args: Arguments, host: Host)
    ensures var path := Get(args, "filepath", PyNone);
      var content := Get(args, "content", PyNone);
      var r := CallTool("write_file", args, host);
      if host.open(path).Some? then r == [TextContent("Error: " + host.open(path).value)]
      else if content.Other? then r == [TextContent("Error: " + WriteTypeError(content))]
      else if host.write(path, content.s).Some? then r == [TextContent("Error: " + host.write(path, content.s).value)]
      else r == [TextContent("Successfully wrote " + NatToString(|content.s|) + " characters to " + Render(path))]
  {
    CallToolBranches(args, host);
    WriteFileOutcome(args, host);
  }

  /** `write_file` answers with an `Error:` text exactly when opening fails,
      the content is not a string, or writing fails. */
  lemma WriteFileReportsFailure(args: Arguments, host: Host)
    ensures var path := Get(args, "filepath", PyNone);
      var content := Get(args, "content", PyNone);
      StartsWith(CallTool("write_file", args, host)[0].text, "Error: ") <==>
        host.open(path).Some? || content.Other? || host.write(path, content.s).Some?
  {
    CallToolBranches(args, host);
    var outcome := WriteFile(args, host);
    var t := CallTool("write_file", args, host)[0].text;
    if outcome.Ok? {
      assert StartsWith(t, "Successfully wrote ");
      assert t[0] != "Error: "[0];
    } else {
      assert t == "Error: " + outcome.error;
      assert t[..7] == "Error: ";
    }
  }

  /** Without a `content` argument, writing `None` to an opened file is
      answered with the `TypeError` that names `None`. */
  lemma MissingContentAnswer(args: Arguments, host: Host)
    requires "content" !in args
    requires host.open(Get(args, "filepath", PyNone)).None?
    ensures CallTool("write_file", args, host) == [TextContent("Error: " + "write() argument must be str, not None")]
  {
    CallToolBranches(args, host);
  }

  /** An `Error:` answer can only come from an exception the host raised,
      or from writing content that is not a string: the dispatcher itself
      never fails. */
  lemma FailuresComeFromHandlers(name: string, args: Arguments, host: Host)
    requires Run(name, args, host).Err?
    ensures var m := Run(name, args, host).error;
      CallTool(name, args, host) == [TextContent("Error: " + m)]
      && (|| (name == "fetch_url"
              && host.request(Get(args, "method", Str("GET")), Get(args, "url", PyNone)) == Err(m))
          || (name == "process_data"
              && IsKnownOperation(Get(args, "operation", Str("")))
              && host.transform(Get(args, "operation", Str("")).s, Get(args, "data", Str(""))) == Err(m))
          || (name == "write_file"
              && (|| host.open(Get(args, "filepath", PyNone)) == Some(m)
                  || (Get(args, "content", PyNone).Other?
                      && m == WriteTypeError(Get(args, "content", PyNone)))
                  || (Get(args, "content", PyNone).Str?
                      && host.write(Get(args, "filepath", PyNone), Get(args, "content", PyNone).s) == Some(m)))))
  {
    RoutesOfListedNames();
  }
}
