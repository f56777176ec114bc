/** `list_resources` and `read_resource`: two advertised resources and a
    reader that routes a URI by its prefix. */
module Resources {
  import opened Wrappers
  import opened Strings
  import opened Host

  datatype Resource = Resource(uri: string, name: string, description: string, mimeType: string)

  /** `list_resources()`. */
  function ListResources(): (resources: seq<Resource>)
    ensures |resources| == 2
    ensures resources[0].uri != resources[1].uri
  {
    [ Resource("file://example.txt", "Example File", "An example file resource", "text/plain"),
      Resource("config://server-config", "Server Configuration", "Current server configuration", "application/json") ]
  }

  const FilePrefix: string := "file://"
  const ConfigPrefix: string := "config://"

  /** The branch of `read_resource` a URI takes; `file://` is tested first. */
  datatype Scheme = FileScheme | ConfigScheme | UnknownScheme

  function SchemeOf(uri: string): (s: Scheme)
    ensures s == FileScheme <==> StartsWith(uri, FilePrefix)
    ensures s == ConfigScheme <==> !StartsWith(uri, FilePrefix) && StartsWith(uri, ConfigPrefix)
  {
    if StartsWith(uri, FilePrefix) then FileScheme
    else if StartsWith(uri, ConfigPrefix) then ConfigScheme
    else UnknownScheme
  }

  /** `str(uri).replace("file://", "")`: every occurrence is removed, not
      only the leading one, each taking exactly its seven characters with
      it; a URI without `file://` is left as it is. */
  function FilePath(uri: string): (path: string)
    ensures |path| + (|Split(uri, FilePrefix)| - 1) * |FilePrefix| == |uri|
    ensures FreeOf(uri, FilePrefix) ==> path == uri
  {
    SplitDeletesSeparators(uri, FilePrefix);
    ReplaceAll(uri, FilePrefix, "")
  }

  /** The object whose `json.dumps` the `config://` branch returns: the
      keys server_name, server_version and log_level, in that order, each
      with the environment's value or its default when the variable is
      unset. */
  function ConfigObject(host: Host): (obj: seq<(string, string)>)
    ensures |obj| == 3
    ensures obj[0].0 == "server_name" && obj[1].0 == "server_version" && obj[2].0 == "log_level"
    ensures "MCP_SERVER_NAME" !in host.env ==> obj[0].1 == "mcp-server-poc"
    ensures "MCP_SERVER_VERSION" !in host.env ==> obj[1].1 == "0.1.0"
    ensures "LOG_LEVEL" !in host.env ==> obj[2].1 == "INFO"
    ensures "MCP_SERVER_NAME" in host.env ==> obj[0].1 == host.env["MCP_SERVER_NAME"]
    ensures "MCP_SERVER_VERSION" in host.env ==> obj[1].1 == host.env["MCP_SERVER_VERSION"]
    ensures "LOG_LEVEL" in host.env ==> obj[2].1 == host.env["LOG_LEVEL"]
  {
    [ ("server_name", Getenv(host, "MCP_SERVER_NAME", "mcp-server-poc")),
      ("server_version", Getenv(host, "MCP_SERVER_VERSION", "0.1.0")),
      ("log_level", Getenv(host, "LOG_LEVEL", "INFO")) ]
  }

  /** `read_resource(uri)`, with `uri` already rendered by `str()`. Only a
      missing file is answered in text; any other failure to read escapes
      as `Err`. */
  function ReadResource(uri: string, host: Host): (r: Result<string, string>)
    ensures r.Err? ==> SchemeOf(uri) == FileScheme && host.readFile(FilePath(uri)) == ReadFailed(r.error)
    ensures SchemeOf(uri) != FileScheme ==> r.Ok?
  {
    match SchemeOf(uri)
    case FileScheme =>
      var path := FilePath(uri);
      (match host.readFile(path)
       case Contents(text) => Ok(text)
       case FileNotFound => Ok("File not found: " + path)
       case ReadFailed(message) => Err(message))
    case ConfigScheme => Ok(host.dumps(ConfigObject(host)))
    case UnknownScheme => Ok("Unknown resource: " + uri)
  }

  // ---------------------------------------------------------------------
  // Properties

  /** The path a `file://` URI names: cutting the URI at every `file://`
      and gluing the pieces back together without it. No piece holds a
      `file://`, and re-inserting it between the pieces restores the URI. */
  lemma FilePathDeletesEveryOccurrence(uri: string)
    ensures var pieces := Split(uri, FilePrefix);
      && FilePath(uri) == Join(pieces, "")
      && Join(pieces, FilePrefix) == uri
      && forall k :: 0 <= k < |pieces| ==> FreeOf(pieces[k], FilePrefix)
  {
    JoinSplit(uri, FilePrefix);
    SplitPiecesFree(uri, FilePrefix);
  }

  /** For a URI with a single, leading `file://` the path is the rest. */
  lemma FilePathOfPlainUri(path: string)
    requires FreeOf(path, FilePrefix)
    ensures SchemeOf(FilePrefix + path) == FileScheme
    ensures FilePath(FilePrefix + path) == path
  {
    assert (FilePrefix + path)[..|FilePrefix|] == FilePrefix;
    StripLeading(path, FilePrefix);
  }

  /** A `file://` inside the path is deleted as well. */
  lemma FilePathDropsInnerPrefix()
    ensures FilePath("file://a/file://b") == "a/b"
  {
    var s, t, u, v := "file://a/file://b", "a/file://b", "/file://b", "file://b";
    assert s[..7] == FilePrefix && s[7..] == t;
    assert t[..7][0] != FilePrefix[0] && t[1..] == u;
    assert u[..7][0] != FilePrefix[0] && u[1..] == v;
    assert v[..7] == FilePrefix && v[7..] == "b";
    assert Split("b", FilePrefix) == ["b"];
    assert Split(v, FilePrefix) == ["", "b"];
    assert [u[0]] + "" == "/";
    assert Split(u, FilePrefix) == [[u[0]] + ""] + ["b"];
    assert Split(u, FilePrefix) == ["/", "b"];
    assert [t[0]] + "/" == "a/";
    assert Split(t, FilePrefix) == [[t[0]] + "/"] + ["b"];
    assert Split(t, FilePrefix) == ["a/", "b"];
    assert Split(s, FilePrefix) == ["", "a/", "b"];
    assert Join(["", "a/", "b"], "") == "a/b";
  }

  /** What each branch answers. */
  lemma ReadResourceAnswer(uri: string, host: Host)
    ensures SchemeOf(uri) == FileScheme ==>
      var path := FilePath(uri);
      ReadResource(uri, host) ==
        match host.readFile(path)
        case Contents(text) => Ok(text)
        case FileNotFound => Ok("File not found: " + path)
        case ReadFailed(message) => Err(message)
    ensures SchemeOf(uri) == ConfigScheme ==>
      ReadResource(uri, host) == Ok(host.dumps(ConfigObject(host)))
    ensures SchemeOf(uri) == UnknownScheme ==>
      ReadResource(uri, host) == Ok("Unknown resource: " + uri)
  {
  }

  /** The listed file resource reads `example.txt`. */
  lemma ExampleFilePath()
    ensures SchemeOf(ListResources()[0].uri) == FileScheme
    ensures FilePath(ListResources()[0].uri) == "example.txt"
  {
    var path := "example.txt";
    assert ListResources()[0].uri == FilePrefix + path;
    assert forall i :: 0 <= i < |path| ==> path[i] != FilePrefix[0];
    FreeOfFirstChar(path, FilePrefix);
    FilePathOfPlainUri(path);
  }

  /** The listed config resource takes the config branch. */
  lemma ServerConfigScheme()
    ensures SchemeOf(ListResources()[1].uri) == ConfigScheme
  {
    var config := ListResources()[1].uri;
    assert config[..9] == ConfigPrefix;
    assert config[..7][0] != FilePrefix[0];
  }

  /** Every advertised resource is routed to a reader, not answered as
      unknown: the file one reads `example.txt`, the config one gets the
      configuration object. */
  lemma ListedResourcesAreReadable(host: Host)
    ensures forall k :: 0 <= k < |ListResources()| ==> SchemeOf(ListResources()[k].uri) != UnknownScheme
    ensures SchemeOf(ListResources()[0].uri) == FileScheme
    ensures FilePath(ListResources()[0].uri) == "example.txt"
    ensures ReadResource(ListResources()[1].uri, host) == Ok(host.dumps(ConfigObject(host)))
  {
    ExampleFilePath();
    ServerConfigScheme();
  }
}
