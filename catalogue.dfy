/** The tool catalogue that `list_tools` advertises: five fixed descriptors
    with a JSON-schema shaped description of their arguments. */
module Catalogue {
  import opened Wrappers

  /** One entry of an input schema's `properties`. */
  datatype Property = Property(
    typ: string,
    description: string,
    default: Option<string>,
    choices: Option<seq<string>>)  // the schema's `enum`, when it has one

  /** An `inputSchema`. `properties` keeps the dictionary's order;
      `required` is `None` where the schema has no `required` key. */
  datatype InputSchema = InputSchema(
    typ: string,
    properties: seq<(string, Property)>,
    required: Option<seq<string>>)

  datatype Tool = Tool(name: string, description: string, inputSchema: InputSchema)

  function PropertyNames(schema: InputSchema): seq<string>
  {
    seq(|schema.properties|, k requires 0 <= k < |schema.properties| => schema.properties[k].0)
  }

  function RequiredNames(schema: InputSchema): seq<string>
  {
    match schema.required
    case None => []
    case Some(names) => names
  }

  function ToolNames(tools: seq<Tool>): seq<string>
  {
    seq(|tools|, k requires 0 <= k < |tools| => tools[k].name)
  }

  /** No two tools share a name. */
  predicate NamesDistinct(tools: seq<Tool>)
  {
    forall i, j :: 0 <= i < j < |tools| ==> tools[i].name != tools[j].name
  }

  /** Every required argument is a declared property. */
  predicate RequiredDeclared(schema: InputSchema)
  {
    forall n :: n in RequiredNames(schema) ==> n in PropertyNames(schema)
  }

  /** No property name is declared twice in one schema. */
  predicate PropertiesDistinct(schema: InputSchema)
  {
    forall i, j :: 0 <= i < j < |schema.properties| ==> schema.properties[i].0 != schema.properties[j].0
  }

  /** A property's `default`, when present, is one of its `enum` values. */
  predicate DefaultsAllowed(schema: InputSchema)
  {
    forall k :: 0 <= k < |schema.properties| ==>
      var p := schema.properties[k].1;
      p.default.Some? && p.choices.Some? ==> p.default.value in p.choices.value
  }

  function StringProperty(description: string): Property
  {
    Property("string", description, None, None)
  }

  /** `list_tools()`: the advertised catalogue. */
  function ListTools(): (tools: seq<Tool>)
    ensures |tools| == 5
    ensures NamesDistinct(tools)
  {
    [ Tool("calculate",
        "Perform mathematical calculations. Supports basic arithmetic operations.",
        InputSchema("object",
          [("expression", StringProperty("Mathematical expression to evaluate (e.g., '2 + 2', '10 * 5')"))],
          Some(["expression"]))),
      Tool("fetch_url",
        "Fetch content from a URL and return the response",
        InputSchema("object",
          [("url", StringProperty("URL to fetch")),
           ("method", Property("string", "HTTP method (GET, POST, etc.)", Some("GET"), None))],
          Some(["url"]))),
      Tool("get_system_info",
        "Get system information including timestamp and environment details",
        InputSchema("object", [], None)),
      Tool("process_data",
        "Process and transform data (example: reverse string, uppercase, etc.)",
        InputSchema("object",
          [("data", StringProperty("Data to process")),
           ("operation", Property("string",
              "Operation to perform: 'reverse', 'uppercase', 'lowercase', 'count'",
              None, Some(["reverse", "uppercase", "lowercase", "count"])))],
          Some(["data", "operation"]))),
      Tool("write_file",
        "Write content to a file",
        InputSchema("object",
          [("filepath", StringProperty("Path to the file to write")),
           ("content", StringProperty("Content to write to the file"))],
          Some(["filepath", "content"])))
    ]
  }

  /** Every schema of the catalogue is an object schema whose required
      arguments are declared properties, whose property names are distinct
      and whose defaults lie within their `enum`. */
  lemma CatalogueWellFormed()
    ensures forall k :: 0 <= k < |ListTools()| ==>
      ListTools()[k].inputSchema.typ == "object"
      && RequiredDeclared(ListTools()[k].inputSchema)
      && PropertiesDistinct(ListTools()[k].inputSchema)
      && DefaultsAllowed(ListTools()[k].inputSchema)
  {
    var tools := ListTools();
    forall k | 0 <= k < |tools|
      ensures RequiredDeclared(tools[k].inputSchema)
    {
      var names := PropertyNames(tools[k].inputSchema);
      assert forall i :: 0 <= i < |names| ==> names[i] == tools[k].inputSchema.properties[i].0;
      if k == 0 {
        assert names[0] == "expression";
      } else if k == 1 {
        assert names[0] == "url";
      } else if k == 3 {
        assert names[0] == "data" && names[1] == "operation";
      } else if k == 4 {
        assert names[0] == "filepath" && names[1] == "content";
      }
    }
  }

  /** The names the unit test checks are all advertised. */
  lemma ListedNames()
    ensures ToolNames(ListTools()) == ["calculate", "fetch_url", "get_system_info", "process_data", "write_file"]
    ensures "calculate" in ToolNames(ListTools())
    ensures "fetch_url" in ToolNames(ListTools())
    ensures "get_system_info" in ToolNames(ListTools())
  {
  }
}
