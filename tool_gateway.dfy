/**
 * The tool surface of the Skilder client: turning listed descriptors into
 * `MCPTool`s, the `tools()` metadata dicts, the first-match lookup by
 * name, the `call_tool` response shape and the text `MCPTool._arun`
 * returns to the agent.
 */
module ToolGateway {
  import opened Wrappers
  import opened Python

  /** A descriptor as the server lists it; description and schema may be absent. */
  datatype RemoteTool = RemoteTool(name: string, description: Option<string>, inputSchema: Option<map<string, PyValue>>)

  /**
   * An `MCPTool`. Its reference back to the client is not a field here:
   * running a tool goes through the owning client.
   */
  datatype Tool = Tool(name: string, description: string, inputSchema: map<string, PyValue>)

  /** The response of the session's `call_tool`. */
  datatype CallToolResult = CallToolResult(content: PyValue, isError: bool)

  /** `MCPTool(name, description, input_schema)`: a missing or empty schema is stored as `{}`. */
  function NewTool(name: string, description: string, inputSchema: map<string, PyValue>): (t: Tool)
    ensures t.name == name && t.description == description
    ensures t.inputSchema == inputSchema
  {
    Tool(name, description, if inputSchema == map[] then map[] else inputSchema)
  }

  /**
   * One descriptor as `get_langchain_tools` adapts it
   * (`description or ""`, `inputSchema or {}`): absent parts get their
   * empty default, present ones are kept verbatim.
   */
  function ToolFromDescriptor(d: RemoteTool): (t: Tool)
    ensures t.name == d.name
    ensures t.description == (if d.description.Some? then d.description.value else "")
    ensures t.inputSchema == (if d.inputSchema.Some? then d.inputSchema.value else map[])
  {
    var description := if Truthy(d.description) then d.description.value else "";
    var schema := if d.inputSchema.Some? && d.inputSchema.value != map[] then d.inputSchema.value else map[];
    NewTool(d.name, description, schema)
  }

  /** The loop of `get_langchain_tools`: one tool per descriptor, in listing order. */
  method AdaptTools(listed: seq<RemoteTool>) returns (tools: seq<Tool>)
    ensures |tools| == |listed|
    ensures forall i :: 0 <= i < |listed| ==> tools[i] == ToolFromDescriptor(listed[i])
  {
    tools := [];
    for i := 0 to |listed|
      invariant |tools| == i
      invariant forall k :: 0 <= k < i ==> tools[k] == ToolFromDescriptor(listed[k])
    {
      tools := tools + [ToolFromDescriptor(listed[i])];
    }
  }

  /** The dict `tools()` yields for one tool. */
  function ToolDict(t: Tool): map<string, PyValue> {
    map["name" := PyStr(t.name), "description" := PyStr(t.description), "inputSchema" := PyDict(t.inputSchema)]
  }

  /** Reading a tool back from such a dict. */
  function DictToTool(d: map<string, PyValue>): Option<Tool> {
    if "name" in d && d["name"].PyStr? && "description" in d && d["description"].PyStr?
       && "inputSchema" in d && d["inputSchema"].PyDict?
    then Some(Tool(d["name"].s, d["description"].s, d["inputSchema"].entries))
    else None
  }

  /** `tools()`: one dict per tool, in order, with exactly the three keys. */
  function ToolDicts(tools: seq<Tool>): (r: seq<map<string, PyValue>>)
    ensures |r| == |tools|
    ensures forall i :: 0 <= i < |tools| ==>
      r[i].Keys == {"name", "description", "inputSchema"} && DictToTool(r[i]) == Some(tools[i])
  {
    seq(|tools|, i requires 0 <= i < |tools| => ToolDict(tools[i]))
  }

  /** `get_tool_by_name`'s scan: the first tool whose name is equal, or nothing. */
  method FindTool(tools: seq<Tool>, toolName: string) returns (r: Option<Tool>)
    ensures r.None? <==> forall i :: 0 <= i < |tools| ==> tools[i].name != toolName
    ensures r.Some? ==> exists i :: 0 <= i < |tools| && tools[i] == r.value && tools[i].name == toolName
                                  && forall j :: 0 <= j < i ==> tools[j].name != toolName
  {
    for i := 0 to |tools|
      invariant forall j :: 0 <= j < i ==> tools[j].name != toolName
    {
      if tools[i].name == toolName {
        return Some(tools[i]);
      }
    }
    return None;
  }

  /** The dict `call_tool` returns: the response's content and error flag, nothing else. */
  function CallToolDict(res: CallToolResult): (d: map<string, PyValue>)
    ensures d.Keys == {"content", "isError"}
    ensures d["content"] == res.content && d["isError"] == PyBool(res.isError)
  {
    map["content" := res.content, "isError" := PyBool(res.isError)]
  }

  // ----- Python's str.join and str.split -----

  /** Index of the first entry that is not a string. */
  function FirstNonStr(parts: seq<PyValue>): (r: Option<nat>)
    ensures r.Some? ==> r.value < |parts| && !parts[r.value].PyStr?
                        && forall k :: 0 <= k < r.value ==> parts[k].PyStr?
    ensures r.None? ==> forall k :: 0 <= k < |parts| ==> parts[k].PyStr?
  {
    if |parts| == 0 then None
    else if !parts[0].PyStr? then Some(0)
    else match FirstNonStr(parts[1..])
      case None => None
      case Some(k) => Some(k + 1)
  }

  function JoinStrs(sep: string, strs: seq<string>): string {
    if |strs| == 0 then ""
    else if |strs| == 1 then strs[0]
    else strs[0] + sep + JoinStrs(sep, strs[1..])
  }

  /** The `TypeError` `str.join` raises for entry `i`, which is `v`. */
  function JoinTypeError(i: nat, v: PyValue): PyException {
    PyException("TypeError", "sequence item " + NatToString(i) + ": expected str instance, " + TypeName(v) + " found")
  }

  /** `sep.join(parts)`, raising `TypeError` at the first entry that is not a string. */
  function PyJoin(sep: string, parts: seq<PyValue>): Result<string, PyException> {
    match FirstNonStr(parts)
    case Some(i) => Failure(JoinTypeError(i, parts[i]))
    case None =>
      Success(JoinStrs(sep, seq(|parts|, k requires 0 <= k < |parts| => parts[k].s)))
  }

  /** `s.split(sep)` for a one-character separator. */
  function Split(s: string, sep: char): (r: seq<string>)
    ensures |r| > 0
  {
    if |s| == 0 then [""]
    else
      var rest := Split(s[1..], sep);
      if s[0] == sep then [""] + rest else [[s[0]] + rest[0]] + rest[1..]
  }

  lemma {:induction false} SplitWithoutSep(s: string, sep: char)
    requires sep !in s
    ensures Split(s, sep) == [s]
  {
    if |s| > 0 {
      assert sep !in s[1..];
      SplitWithoutSep(s[1..], sep);
      assert [s[0]] + s[1..] == s;
    }
  }

  lemma {:induction false} SplitAfterPiece(x: string, sep: char, y: string)
    requires sep !in x
    ensures Split(x + [sep] + y, sep) == [x] + Split(y, sep)
  {
    if |x| == 0 {
      assert x + [sep] + y == [sep] + y;
      assert ([sep] + y)[1..] == y;
    } else {
      assert (x + [sep] + y)[1..] == x[1..] + [sep] + y;
      assert sep !in x[1..];
      SplitAfterPiece(x[1..], sep, y);
      assert [x[0]] + x[1..] == x;
    }
  }

  /** Splitting a join at its separator gives back the pieces, when no piece holds the separator. */
  lemma {:induction false} SplitJoin(strs: seq<string>, sep: char)
    requires |strs| > 0
    requires forall k :: 0 <= k < |strs| ==> sep !in strs[k]
    ensures Split(JoinStrs([sep], strs), sep) == strs
  {
    if |strs| == 1 {
      SplitWithoutSep(strs[0], sep);
    } else {
      SplitJoin(strs[1..], sep);
      SplitAfterPiece(strs[0], sep, JoinStrs([sep], strs[1..]));
      assert [strs[0]] + strs[1..] == strs;
    }
  }

  // ----- MCPTool._arun -----

  /** A content item `{"type": "text", "text": t}`. */
  function TextItem(t: string): PyValue {
    PyDict(map["type" := PyStr("text"), "text" := PyStr(t)])
  }

  /** One entry of the formatted list: a text item's `text` (default ""), otherwise `str(item)`. */
  function RenderItem(item: PyValue, show: PyValue -> string): PyValue {
    if item.PyDict? && Get(item.entries, "type", PyNone) == PyStr("text")
    then Get(item.entries, "text", PyStr(""))
    else PyStr(Str(item, show))
  }

  function Rendered(items: seq<PyValue>, show: PyValue -> string): seq<PyValue> {
    seq(|items|, k requires 0 <= k < |items| => RenderItem(items[k], show))
  }

  /** What `_arun` returns when calling the tool raised `e`. */
  function CallErrorText(toolName: string, e: PyException): string {
    "Error calling " + toolName + ": " + e.message
  }

  /**
   * The text `_arun` returns for the outcome of `call_tool`: the raised
   * error, the server-flagged error, the newline-joined content items, or
   * the string form of any other content.
   */
  function OutputText(toolName: string, result: Result<map<string, PyValue>, PyException>,
                      show: PyValue -> string): string
  {
    match result
    case Failure(e) => CallErrorText(toolName, e)
    case Success(d) =>
      if IsTrue(Get(d, "isError", PyBool(false))) then
        "Error executing " + toolName + ": " + Str(Get(d, "content", PyStr("Unknown error")), show)
      else
        var content := Get(d, "content", PyList([]));
        if content.PyList? && content.items != [] then
          match PyJoin("\n", Rendered(content.items, show))
          case Success(text) => text
          case Failure(e) => CallErrorText(toolName, e)
        else Str(content, show)
  }

  /**
   * The whole of `_arun` once `call_tool` produced `result`: an error that
   * `except Exception` does not catch propagates; everything else becomes
   * text.
   */
  function ArunResult(toolName: string, result: Result<map<string, PyValue>, PyException>,
                      show: PyValue -> string): Result<string, PyException>
  {
    if result.Failure? && !IsException(result.error) then Failure(result.error)
    else Success(OutputText(toolName, result, show))
  }

  /** `_arun` after the call: formats the response item by item. */
  method FormatToolOutput(toolName: string, result: Result<map<string, PyValue>, PyException>,
                          show: PyValue -> string) returns (text: string)
    ensures text == OutputText(toolName, result, show)
  {
    if result.Failure? {
      return CallErrorText(toolName, result.error);
    }
    var d := result.value;
    if IsTrue(Get(d, "isError", PyBool(false))) {
      return "Error executing " + toolName + ": " + Str(Get(d, "content", PyStr("Unknown error")), show);
    }
    var content := Get(d, "content", PyList([]));
    if content.PyList? && content.items != [] {
      var formatted: seq<PyValue> := [];
      for i := 0 to |content.items|
        invariant |formatted| == i
        invariant forall k :: 0 <= k < i ==> formatted[k] == RenderItem(content.items[k], show)
      {
        var item := content.items[i];
        if item.PyDict? {
          if Get(item.entries, "type", PyNone) == PyStr("text") {
            formatted := formatted + [Get(item.entries, "text", PyStr(""))];
          } else {
            formatted := formatted + [PyStr(show(item))];
          }
        } else {
          formatted := formatted + [PyStr(Str(item, show))];
        }
      }
      assert formatted == Rendered(content.items, show);
      var joined := PyJoin("\n", formatted);
      if joined.Failure? {
        return CallErrorText(toolName, joined.error);
      }
      return joined.value;
    }
    return Str(content, show);
  }

  /**
   * A response of text items whose texts hold no newline comes back as
   * those texts, one per line: splitting the output on "\n" recovers them.
   */
  lemma TextItemsRecovered(toolName: string, texts: seq<string>, show: PyValue -> string)
    requires |texts| > 0
    requires forall k :: 0 <= k < |texts| ==> '\n' !in texts[k]
    ensures
      var items := seq(|texts|, k requires 0 <= k < |texts| => TextItem(texts[k]));
      Split(OutputText(toolName, Success(CallToolDict(CallToolResult(PyList(items), false))), show), '\n') == texts
  {
    var items := seq(|texts|, k requires 0 <= k < |texts| => TextItem(texts[k]));
    var parts := Rendered(items, show);
    assert forall k :: 0 <= k < |texts| ==> parts[k] == PyStr(texts[k]);
    assert FirstNonStr(parts).None?;
    assert seq(|parts|, k requires 0 <= k < |parts| => parts[k].s) == texts;
    SplitJoin(texts, '\n');
  }

  /** A flagged error is reported as data, naming the tool, never as the content's lines. */
  lemma FlaggedErrorReported(toolName: string, content: PyValue, show: PyValue -> string)
    ensures OutputText(toolName, Success(CallToolDict(CallToolResult(content, true))), show)
            == "Error executing " + toolName + ": " + Str(content, show)
  {
  }

  /** The response of the client test (one text item "ok") is returned as "ok". */
  lemma SingleTextItemExample(show: PyValue -> string)
    ensures OutputText("x", Success(CallToolDict(CallToolResult(PyList([TextItem("ok")]), false))), show) == "ok"
  {
  }

  /** A text item whose text is not a string makes the join raise, and `_arun` reports that error. */
  lemma NonStringTextReported(toolName: string, show: PyValue -> string)
    ensures OutputText(toolName, Success(CallToolDict(CallToolResult(
              PyList([PyDict(map["type" := PyStr("text"), "text" := PyInt(7)])]), false))), show)
            == CallErrorText(toolName, JoinTypeError(0, PyInt(7)))
  {
  }

  /**
   * Every `Exception` the call raised, whatever its class, reaches the
   * agent as text naming the tool; only what escapes `except Exception`
   * is raised again, unchanged.
   */
  lemma ArunRaisesOnlyUncaught(toolName: string, e: PyException, show: PyValue -> string)
    ensures IsException(e) ==> ArunResult(toolName, Failure(e), show) == Success("Error calling " + toolName + ": " + e.message)
    ensures !IsException(e) ==> ArunResult(toolName, Failure(e), show) == Failure(e)
  {
  }
}
