/** The MCP endpoint of pjud/asgi.py: `mcp_endpoint` answers GET with an
    empty text, OPTIONS with 204, and a POST body as a JSON-RPC 2.0
    request. Notifications get 204 and no body; `initialize`,
    `tools/list`, `prompts/list`, `tools/call` and `shutdown` get a result
    or an error object echoing the request id; a request without a method
    is invalid (400), any other method unknown (404), and an exception
    anywhere becomes a server error (500) with id null.

    The endpoint's surroundings are the `Host`: the tool modules as an
    importer, the tool-list file, and Python's `str()` of a value. The
    endpoint imports `mcp_app.tools`, which is the package of
    mcp_app/tools/__init__.py: its `call_tool` goes through the manager and
    its `call_tool_async` imports the module directly. */
module Asgi {
  import opened Common
  import opened ToolsManager
  import opened ToolRegistry

  const ProtocolVersion := "2025-03-26"

  const InvalidRequest: int := -32600
  const MethodNotFound: int := -32601
  const InvalidParams: int := -32602
  const ServerError: int := -32000

  datatype HttpMethod = Get | Options | Post

  /** A request body: absent, not UTF-8 JSON, or a decoded JSON value. */
  datatype Body = NoBody | Undecodable | Decoded(value: Json)

  datatype Response =
    | PlainText(status: int, text: string)
    | NoContent(status: int)
    | JsonResponse(status: int, body: Json)

  datatype Host = Host(importer: Importer, listFile: ListFile, pyStr: Json -> string)

  /** `safe_payload(request)`: the decoded body, or `{}` when the body is
      empty or does not decode. */
  function SafePayload(body: Body): (r: Json)
    ensures body.Decoded? ==> r == body.value
    ensures !body.Decoded? ==> r == JObj(map[])
  {
    if body.Decoded? then body.value else JObj(map[])
  }

  /** Python's type name of a JSON value that is not an object. */
  function TypeName(v: Json): string
  {
    match v
    case JNull => "NoneType"
    case JBool(_) => "bool"
    case JInt(_) => "int"
    case JStr(_) => "str"
    case JArr(_) => "list"
    case JObj(_) => "dict"
  }

  /** `str(v)`, which is the string itself for a string. */
  function Text(v: Json, pyStr: Json -> string): (r: string)
    ensures v.JStr? ==> r == v.s
  {
    if v.JStr? then v.s else pyStr(v)
  }

  /** `d.get(key)`: None when the key is missing. */
  function Field(fields: map<string, Json>, key: string): (r: Json)
    ensures key in fields ==> r == fields[key]
    ensures key !in fields ==> r == JNull
  {
    if key in fields then fields[key] else JNull
  }

  /** The outcome a JSON-RPC response carries. */
  datatype Outcome = Success(result: Json) | Failure(code: int, message: string)

  /** A JSON-RPC 2.0 response object: "jsonrpc", "id" and exactly one of
      "result" or "error". */
  function RpcBody(id: Json, outcome: Outcome): (r: Json)
    ensures r.JObj? && "jsonrpc" in r.fields && "id" in r.fields
    ensures r.fields["jsonrpc"] == JStr("2.0") && r.fields["id"] == id
    ensures outcome.Success? ==> r.fields.Keys == {"jsonrpc", "id", "result"} && r.fields["result"] == outcome.result
    ensures outcome.Failure? ==> r.fields.Keys == {"jsonrpc", "id", "error"}
                                 && r.fields["error"] == JObj(map["code" := JInt(outcome.code), "message" := JStr(outcome.message)])
  {
    var head := map["jsonrpc" := JStr("2.0"), "id" := id];
    match outcome
    case Success(v) => JObj(head["result" := v])
    case Failure(c, m) => JObj(head["error" := JObj(map["code" := JInt(c), "message" := JStr(m)])])
  }

  /** What the POST branch answers: no body, or a JSON-RPC response with
      its status, id and outcome. */
  datatype Reply = Silent | Answer(status: int, id: Json, outcome: Outcome)

  /** The HTTP response of a reply: `Response(status_code=204)` or a
      `JSONResponse`. */
  function Render(a: Reply): Response
  {
    match a
    case Silent => NoContent(204)
    case Answer(status, id, outcome) => JsonResponse(status, RpcBody(id, outcome))
  }

  /** The handler for any exception: status 500, id null, code -32000. */
  function InternalError(message: string): Reply
  {
    Answer(500, JNull, Failure(ServerError, "Internal error: " + message))
  }

  /** The text of the AttributeError `.get` raises on a value that is not
      an object. */
  function NoGet(v: Json): string
  {
    "'" + TypeName(v) + "' object has no attribute 'get'"
  }

  /** The result of `initialize`. */
  function InitializeResult(): Json
  {
    JObj(map[
      "protocolVersion" := JStr(ProtocolVersion),
      "capabilities" := JObj(map[
        "tools" := JObj(map["listChanged" := JBool(true)]),
        "resources" := JObj(map[]),
        "prompts" := JObj(map[])]),
      "serverInfo" := JObj(map["name" := JStr("mcp-django"), "version" := JStr("1.0.0")])])
  }

  /** The tool list as a JSON array. */
  function ToolsJson(tools: seq<map<string, Json>>): (r: Json)
    ensures r.JArr? && |r.items| == |tools|
    ensures forall i :: 0 <= i < |tools| ==> r.items[i] == JObj(tools[i])
  {
    JArr(seq(|tools|, i requires 0 <= i < |tools| => JObj(tools[i])))
  }

  /** `call_tool(name, arguments)` of the tools package, through the
      manager: a list or object name is unhashable for the cache lookup;
      any other name is imported by its `str()`. The manager's cache does
      not change the answer (ToolsManager.LoadTransparent), so a fresh one
      stands for it. */
  function SyncCall(host: Host, name: Json, arguments: Json): Result<Json, string>
  {
    if name.JArr? then Err("unhashable type: 'list'")
    else if name.JObj? then Err("unhashable type: 'dict'")
    else ExecuteSpec(map[], host.importer, Text(name, host.pyStr), arguments).0
  }

  /** `call_tool_async(name, arguments)`: the module named by `str(name)`. */
  function AsyncCall(host: Host, name: Json, arguments: Json): Result<Json, string>
  {
    CallToolAsync(host.importer, Text(name, host.pyStr), arguments)
  }

  /** The answer to a tool call: its result, or its failure as -32602 with
      status 200. */
  function CallResponse(id: Json, r: Result<Json, string>): Reply
  {
    match r
    case Ok(v) => Answer(200, id, Success(v))
    case Err(e) => Answer(200, id, Failure(InvalidParams, e))
  }

  /** The two tool-call branches: `params or {}`, then its "name" and its
      "arguments" (default `{}`). A truthy `params` that is not an object
      fails on `.get`, outside the call's own handler. */
  function ToolCall(host: Host, id: Json, data: map<string, Json>, viaManager: bool): Reply
  {
    var params := if "params" in data && Truthy(data["params"]) then data["params"] else JObj(map[]);
    if !params.JObj? then InternalError(NoGet(params))
    else
      var name := Field(params.fields, "name");
      var arguments := if "arguments" in params.fields then params.fields["arguments"] else JObj(map[]);
      CallResponse(id, if viaManager then SyncCall(host, name, arguments) else AsyncCall(host, name, arguments))
  }

  /** A notification: "initialized" or any "notifications/..." method. */
  predicate IsNotification(op: Json)
  {
    op.JStr? && (op.s == "initialized" || StartsWith(op.s, "notifications/"))
  }

  /** The POST branch on the payload `data`. */
  function Decide(host: Host, data: Json): Reply
  {
    if !data.JObj? then InternalError(NoGet(data))
    else
      var op := Field(data.fields, "method");
      var id := Field(data.fields, "id");
      if IsNotification(op) then Silent
      else if op == JStr("initialize") then Answer(200, id, Success(InitializeResult()))
      else if op == JStr("tools/list") || op == JStr("prompts/list") then
        Answer(200, id, Success(JObj(map["tools" := ToolsJson(AvailableTools(host.listFile))])))
      else if op == JStr("XXXtools/call") then ToolCall(host, id, data.fields, true)
      else if op == JStr("tools/call") then ToolCall(host, id, data.fields, false)
      else if op == JStr("shutdown") then Answer(200, id, Success(JObj(map[])))
      else if op == JNull then
        Answer(400, id, Failure(InvalidRequest, "Invalid Request: missing 'method' or 'jsonrpc'."))
      else Answer(404, id, Failure(MethodNotFound, "Method not found: " + Text(op, host.pyStr)))
  }

  /** `mcp_endpoint(request)`. */
  function Endpoint(host: Host, m: HttpMethod, body: Body): Response
  {
    match m
    case Get => PlainText(200, "")
    case Options => NoContent(204)
    case Post => Render(Decide(host, SafePayload(body)))
  }

  /** The status that goes with each error code. */
  function StatusFor(code: int): int
  {
    if code == InvalidRequest then 400
    else if code == MethodNotFound then 404
    else if code == ServerError then 500
    else 200
  }

  /** A result always comes with 200 and each error code with its own
      status; the codes are the four the endpoint uses. A server error has
      id null, every other answer echoes the request id. Rendered, every
      answer is a JSON-RPC 2.0 response object (RpcBody). */
  lemma ResponsesWellFormed(host: Host, data: Json)
    ensures var a := Decide(host, data);
      a.Answer? ==>
        && (a.outcome.Success? ==> a.status == 200)
        && (a.outcome.Failure? ==> a.status == StatusFor(a.outcome.code)
                                   && a.outcome.code in {InvalidRequest, MethodNotFound, InvalidParams, ServerError})
        && (a.outcome.Failure? && a.outcome.code == ServerError ==> a.id == JNull)
        && (data.JObj? && !(a.outcome.Failure? && a.outcome.code == ServerError) ==> a.id == Field(data.fields, "id"))
  {
    if data.JObj? {
      var op := Field(data.fields, "method");
      if op == JStr("XXXtools/call") || op == JStr("tools/call") {
        ToolCallWellFormed(host, Field(data.fields, "id"), data.fields, op == JStr("XXXtools/call"));
      }
    }
  }

  /** A tool call answers with the request id and a result or -32602, or
      with a server error when `params` is not an object. */
  lemma ToolCallWellFormed(host: Host, id: Json, data: map<string, Json>, viaManager: bool)
    ensures var a := ToolCall(host, id, data, viaManager);
      && a.Answer?
      && (a.outcome.Success? ==> a.status == 200 && a.id == id)
      && (a.outcome.Failure? ==>
            || (a.outcome.code == InvalidParams && a.status == 200 && a.id == id)
            || (a.outcome.code == ServerError && a.status == 500 && a.id == JNull))
  {
  }

  /** GET answers an empty text and OPTIONS 204, whatever the body. */
  lemma GetAndOptions(host: Host, body: Body)
    ensures Endpoint(host, Get, body) == PlainText(200, "")
    ensures Endpoint(host, Options, body) == NoContent(204)
  {
  }

  /** An empty or undecodable body reads as `{}`, which has no method: 400
      with -32600 and id null. */
  lemma EmptyBodyInvalid(host: Host, body: Body)
    requires !body.Decoded?
    ensures Endpoint(host, Post, body) ==
      JsonResponse(400, RpcBody(JNull, Failure(InvalidRequest, "Invalid Request: missing 'method' or 'jsonrpc'.")))
  {
    var empty: map<string, Json> := map[];
    assert Field(empty, "method") == JNull && Field(empty, "id") == JNull;
    assert Decide(host, JObj(empty)) == Answer(400, JNull, Failure(InvalidRequest, "Invalid Request: missing 'method' or 'jsonrpc'."));
  }

  /** A decoded body that is not an object fails on `.get`: 500, -32000. */
  lemma NonObjectBody(host: Host, v: Json)
    requires !v.JObj?
    ensures Endpoint(host, Post, Decoded(v)) ==
      JsonResponse(500, RpcBody(JNull, Failure(ServerError, "Internal error: " + ("'" + TypeName(v) + "' object has no attribute 'get'"))))
    ensures TypeName(v) in {"NoneType", "bool", "int", "str", "list"}
  {
  }

  /** A notification gets 204 and no body, whatever else the request holds:
      the check comes before every method. */
  lemma NotificationsFirst(host: Host, fields: map<string, Json>, s: string)
    requires "method" in fields && fields["method"] == JStr(s)
    requires s == "initialized" || (|s| >= 14 && s[..14] == "notifications/")
    ensures Decide(host, JObj(fields)) == Silent
  {
  }

  /** `initialize` announces protocol version 2025-03-26; `tools/list` and
      `prompts/list` answer the tool list; `shutdown` an empty result. */
  lemma KnownMethods(host: Host, fields: map<string, Json>)
    requires "method" in fields
    ensures var a := Decide(host, JObj(fields));
      var id := Field(fields, "id");
      && (fields["method"] == JStr("initialize") ==>
            a.Answer? && a.status == 200 && a.outcome.Success?
            && a.outcome.result.fields["protocolVersion"] == JStr("2025-03-26"))
      && (fields["method"] in {JStr("tools/list"), JStr("prompts/list")} ==>
            a == Answer(200, id, Success(JObj(map["tools" := ToolsJson(AvailableTools(host.listFile))]))))
      && (fields["method"] == JStr("shutdown") ==> a == Answer(200, id, Success(JObj(map[]))))
  {
    assert !IsNotification(JStr("initialize"));
    assert !IsNotification(JStr("tools/list"));
    assert !IsNotification(JStr("prompts/list"));
    assert !IsNotification(JStr("shutdown"));
  }

  /** Any other string method is not found: 404, -32601, naming it. */
  lemma UnknownMethod(host: Host, fields: map<string, Json>, s: string)
    requires "method" in fields && fields["method"] == JStr(s)
    requires !IsNotification(JStr(s))
    requires s !in {"initialize", "tools/list", "prompts/list", "XXXtools/call", "tools/call", "shutdown"}
    ensures Decide(host, JObj(fields)) == Answer(404, Field(fields, "id"), Failure(MethodNotFound, "Method not found: " + s))
  {
  }

  /** `tools/call` with an object `params` naming a tool that loads answers
      that tool's `execute` on the arguments: its result, or its failure
      text under -32602. A tool that does not import answers the import
      error under -32602. */
  lemma ToolsCallRunsTool(host: Host, fields: map<string, Json>, params: map<string, Json>, name: string)
    requires "method" in fields && fields["method"] == JStr("tools/call")
    requires "params" in fields && fields["params"] == JObj(params) && params != map[]
    requires "name" in params && params["name"] == JStr(name)
    ensures var arguments := if "arguments" in params then params["arguments"] else JObj(map[]);
      var a := Decide(host, JObj(fields));
      var id := Field(fields, "id");
      && (Loadable(host.importer, name) ==> a == CallResponse(id, host.importer(name).tool.execute.value(arguments)))
      && (host.importer(name).ImportFails? ==> a == Answer(200, id, Failure(InvalidParams, host.importer(name).message)))
  {
    assert !IsNotification(JStr("tools/call"));
  }
}
