/**
  Request dispatch of the tool-call server: `handleMessage` chooses by the
  JSON-RPC method, `handleToolCall` by the tool name. A tool's own work (its
  validation and store calls) is seen here only through how it ends: with a
  result object or with an error it throws.
 */
module Dispatch {
  import opened Values

  const PROTOCOL_VERSION: string := "2024-11-05"
  const SERVER_NAME: string := "mcp-testing-server"
  const SERVER_VERSION: string := "1.0.0"

  /** The JSON-RPC error code of every error the server reports. */
  const RPC_ERROR: int := -32000

  const TOOL_NAMES: seq<string> := [
    "create_test_suite", "list_test_suites", "add_test_case", "update_test_case",
    "get_test_cases", "get_test_summary", "delete_test_case", "delete_test_suite"
  ]

  /**
    The JSON-RPC messages the server writes. `ToolText` is a tool's result:
    its `payload` serialised as the text of a single content item.
    `ToolCatalogue` names the tools; their input schemas are not modelled.
   */
  datatype Response =
    | Initialized(id: JsValue, protocolVersion: string, serverName: string, serverVersion: string)
    | ToolCatalogue(id: JsValue, tools: seq<string>)
    | ToolText(id: JsValue, payload: JsValue)
    | ErrorReply(id: JsValue, code: int, error: Error)

  /** How a handler ends: with a response, or by throwing. */
  datatype Outcome = Returned(response: Response) | Threw(error: Error)

  /** A tool implementation applied to its name and `arguments`. */
  type ToolRunner = (string, JsValue) -> Result<JsValue, Error>

  /** The names the tool switch of `handleToolCall` has a case for. */
  predicate IsTool(name: JsValue)
  {
    || name == Str("create_test_suite") || name == Str("list_test_suites")
    || name == Str("add_test_case") || name == Str("update_test_case")
    || name == Str("get_test_cases") || name == Str("get_test_summary")
    || name == Str("delete_test_case") || name == Str("delete_test_suite")
  }

  function HandleInitialize(id: JsValue): (r: Response)
    ensures r.Initialized? && r.id == id && r.protocolVersion == "2024-11-05"
    ensures r.serverName == SERVER_NAME && r.serverVersion == SERVER_VERSION
  {
    Initialized(id, PROTOCOL_VERSION, SERVER_NAME, SERVER_VERSION)
  }

  /** The catalogue of `tools/list` names exactly the tools the tool switch accepts, each once. */
  lemma CatalogueMatchesSwitch()
    ensures forall t :: t in TOOL_NAMES <==> IsTool(Str(t))
    ensures forall i, j :: 0 <= i < j < |TOOL_NAMES| ==> TOOL_NAMES[i] != TOOL_NAMES[j]
  {
    var tools := TOOL_NAMES;
    forall t ensures t in tools <==> IsTool(Str(t)) {
      assert (t in tools) <==> (|| t == tools[0] || t == tools[1] || t == tools[2] || t == tools[3]
                                || t == tools[4] || t == tools[5] || t == tools[6] || t == tools[7]);
    }
  }

  function HandleToolsList(id: JsValue): (r: Response)
    ensures r.ToolCatalogue? && r.id == id && |r.tools| == 8
    ensures forall t :: t in r.tools <==> IsTool(Str(t))
    ensures forall i, j :: 0 <= i < j < |r.tools| ==> r.tools[i] != r.tools[j]
  {
    CatalogueMatchesSwitch();
    ToolCatalogue(id, TOOL_NAMES)
  }

  /**
    `handleToolCall(params, id)`. Destructuring `params` happens before the
    try block, so null or undefined params throw; anything thrown inside the
    block, an unknown tool included, becomes an error reply with code
    -32000 that carries the request id.
   */
  function HandleToolCall(params: JsValue, id: JsValue, run: ToolRunner): (r: Outcome)
    ensures r.Threw? <==> params == Undefined || params == JsNull
    ensures r.Threw? ==> r.error == NotDestructurable
    ensures r.Returned? ==> r.response.id == id
    ensures r.Returned? ==> (r.response.ErrorReply? || r.response.ToolText?)
    ensures r.Returned? && r.response.ErrorReply? ==> r.response.code == -32000
    ensures r.Returned? && !IsTool(Prop(params, "name")) ==>
      r.response == ErrorReply(id, -32000, UnknownTool(Prop(params, "name")))
    ensures r.Returned? && IsTool(Prop(params, "name")) ==>
      match run(Prop(params, "name").s, Prop(params, "arguments"))
      case Ok(payload) => r.response == ToolText(id, payload)
      case Err(e) => r.response == ErrorReply(id, -32000, e)
  {
    if params == Undefined || params == JsNull then Threw(NotDestructurable)
    else
      var name := Prop(params, "name");
      var args := Prop(params, "arguments");
      if !IsTool(name) then Returned(ErrorReply(id, RPC_ERROR, UnknownTool(name)))
      else match run(name.s, args)
        case Ok(payload) => Returned(ToolText(id, payload))
        case Err(e) => Returned(ErrorReply(id, RPC_ERROR, e))
  }

  /** The `params` of a message, `{}` when it has none. */
  function Params(message: JsValue): (r: JsValue)
    ensures r != Undefined
    ensures Prop(message, "params") != Undefined ==> r == Prop(message, "params")
    ensures Prop(message, "params") == Undefined ==> r == Obj(map[])
  {
    var p := Prop(message, "params");
    if p == Undefined then Obj(map[]) else p
  }

  /**
    `handleMessage(message)`: answers initialize and tools/list, hands
    tools/call to `HandleToolCall`, and throws on any other method.
   */
  function HandleMessage(message: JsValue, run: ToolRunner): (r: Outcome)
    ensures message == Undefined || message == JsNull ==> r == Threw(NotDestructurable)
    ensures r.Returned? ==> r.response.id == Prop(message, "id")
    ensures message != Undefined && message != JsNull ==>
      var m := Prop(message, "method");
      && (m == Str("initialize") ==> r == Returned(HandleInitialize(Prop(message, "id"))))
      && (m == Str("tools/list") ==> r == Returned(HandleToolsList(Prop(message, "id"))))
      && (m == Str("tools/call") ==> r == HandleToolCall(Params(message), Prop(message, "id"), run))
      && (m !in {Str("initialize"), Str("tools/list"), Str("tools/call")} ==> r == Threw(UnknownMethod(m)))
  {
    if message == Undefined || message == JsNull then Threw(NotDestructurable)
    else
      var m := Prop(message, "method");
      var id := Prop(message, "id");
      if m == Str("initialize") then Returned(HandleInitialize(id))
      else if m == Str("tools/list") then Returned(HandleToolsList(id))
      else if m == Str("tools/call") then HandleToolCall(Params(message), id, run)
      else Threw(UnknownMethod(m))
  }

  /**
    A tools/call whose params are absent or an object never throws: whatever
    the tool does, the caller gets a reply carrying the request id.
   */
  lemma ToolCallNeverThrows(message: JsValue, run: ToolRunner)
    requires message.Obj? && Prop(message, "method") == Str("tools/call")
    requires Prop(message, "params") == Undefined || Prop(message, "params").Obj?
    ensures HandleMessage(message, run).Returned?
    ensures HandleMessage(message, run).response.id == Prop(message, "id")
  {
  }

  /** What the server does with one non-blank line: `JSON.parse`, then `handleMessage`. */
  function HandleLine(line: string, parse: string -> Option<JsValue>, run: ToolRunner): (r: Outcome)
    ensures parse(line) == None ==> r == Threw(ParseFailure)
    ensures parse(line).Some? ==> r == HandleMessage(parse(line).value, run)
  {
    match parse(line)
    case None => Threw(ParseFailure)
    case Some(message) => HandleMessage(message, run)
  }
}
