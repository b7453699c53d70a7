/** The tool layer of mcp_app/tools/__init__.py and mcp_app/tools.py: one
    global ToolsManager, `call_tool`, the registration of every listed tool
    with the MCP server, and the wrapper each registration installs, which
    turns a tool's result into `{"ok": ..., "result"|"error": ...}`. The
    two files register tools and wrap them the same way; tools.py logs
    where __init__.py prints and wraps its loop in a handler that
    re-raises, and its `call_tool` imports the module directly
    (`CallToolAsync` below). The MCP server's
    registration call is a function from the tool name to the exception
    text it raises, if any. */
module ToolRegistry {
  import opened Common
  import opened ToolsManager

  /** `{"ok": True, "result": v}`. */
  function OkResult(v: Json): Json
  {
    JObj(map["ok" := JBool(true), "result" := v])
  }

  /** `{"ok": False, "error": e}`. */
  function ErrResult(e: string): Json
  {
    JObj(map["ok" := JBool(false), "error" := JStr(e)])
  }

  /** `content[0]["text"]` for a non-empty `content`: it succeeds only when
      `content` is a list whose first item is an object with "text";
      otherwise the exception's text is `failure(content)`. */
  function FirstText(content: Json, failure: Json -> string): (r: Result<Json, string>)
    ensures r.Ok? <==> content.JArr? && content.items != [] && content.items[0].JObj?
                       && "text" in content.items[0].fields
    ensures r.Ok? ==> r.value == content.items[0].fields["text"]
  {
    if content.JArr? && content.items != [] && content.items[0].JObj? && "text" in content.items[0].fields then
      Ok(content.items[0].fields["text"])
    else Err(failure(content))
  }

  /** The body of `tool_wrapper` after `execute_tool` returned `result`:
      `pyStr` is Python's `str()` of a value, `failure` the text of the
      exception indexing a malformed content raises. */
  function Shape(result: Result<Json, string>, pyStr: Json -> string, failure: Json -> string): Json
  {
    match result
    case Err(e) => ErrResult(e)
    case Ok(v) =>
      if v.JObj? && "content" in v.fields then
        var content := v.fields["content"];
        if !Truthy(content) then OkResult(JStr("No content"))
        else match FirstText(content, failure)
          case Ok(t) => OkResult(t)
          case Err(e) => ErrResult(e)
      else OkResult(JStr(pyStr(v)))
  }

  /** The wrapper answers `ok: True` exactly when the tool returned and,
      if it returned a "content" field, that field is empty or starts with
      an object holding "text"; the result is that text, "No content" or
      `str()` of the whole value, and a failure carries its message. */
  lemma ShapeOutcome(result: Result<Json, string>, pyStr: Json -> string, failure: Json -> string)
    ensures var out := Shape(result, pyStr, failure);
      var hasContent := result.Ok? && result.value.JObj? && "content" in result.value.fields;
      var content := if hasContent then result.value.fields["content"] else JNull;
      && out.JObj? && "ok" in out.fields
      && (out.fields["ok"] == JBool(true) <==>
            result.Ok? && (!hasContent || !Truthy(content) || FirstText(content, failure).Ok?))
      && (out.fields["ok"] == JBool(true) ==>
            out.fields.Keys == {"ok", "result"}
            && out.fields["result"] ==
                 (if !hasContent then JStr(pyStr(result.value))
                  else if !Truthy(content) then JStr("No content")
                  else FirstText(content, failure).value))
      && (out.fields["ok"] != JBool(true) ==>
            out.fields["ok"] == JBool(false) && out.fields.Keys == {"ok", "error"}
            && out.fields["error"] ==
                 JStr(if result.Err? then result.error else FirstText(content, failure).error))
  {
  }

  /** `call_tool(name, arguments)` in mcp_app/tools/__init__.py: the
      manager's `execute_tool`. */
  method CallTool(m: ToolsManager, name: string, arguments: Json) returns (r: Result<Json, string>)
    modifies m
    ensures (r, m.toolsCache) == ExecuteSpec(old(m.toolsCache), m.importer, name, arguments)
    ensures m.toolsLoaded == old(m.toolsLoaded)
  {
    r := m.ExecuteTool(name, arguments);
  }

  /** The wrapper registered for the tool `name`, called with `kwargs`. */
  method ToolWrapper(m: ToolsManager, name: string, kwargs: Json,
                     pyStr: Json -> string, failure: Json -> string) returns (out: Json)
    modifies m
    ensures out == Shape(ExecuteSpec(old(m.toolsCache), m.importer, name, kwargs).0, pyStr, failure)
    ensures m.toolsCache == ExecuteSpec(old(m.toolsCache), m.importer, name, kwargs).1
  {
    var result := m.ExecuteTool(name, kwargs);
    out := Shape(result, pyStr, failure);
  }

  /** `call_tool_async(name, arguments)`: it imports the module itself,
      without the manager's cache or its check for `execute`. */
  function CallToolAsync(importer: Importer, name: string, arguments: Json): (r: Result<Json, string>)
    ensures importer(name).ImportFails? ==> r == Err(importer(name).message)
    ensures Loadable(importer, name) ==> r == importer(name).tool.execute.value(arguments)
  {
    match importer(name)
    case ImportFails(msg) => Err(msg)
    case Imported(t) =>
      if t.execute.None? then Err("module 'mcp_app.tools." + name + "' has no attribute 'execute'")
      else t.execute.value(arguments)
  }

  /** For a tool that loads, the direct call and the manager's call give the
      same result, except that a failure carries the manager's prefix. */
  lemma AsyncAgreesWithManager(cache: map<string, ToolModule>, importer: Importer, name: string, arguments: Json)
    requires Faithful(cache, importer) && Loadable(importer, name)
    ensures var direct := CallToolAsync(importer, name, arguments);
      var managed := ExecuteSpec(cache, importer, name, arguments).0;
      && (direct.Ok? <==> managed.Ok?)
      && (direct.Ok? ==> direct == managed)
      && (direct.Err? ==> managed.error == "Error ejecutando la herramienta '" + name + "': " + direct.error)
  {
    ExecuteOutcome(cache, importer, name, arguments);
  }

  /** What `register_tools` leaves: the names registered, in order, and the
      lines it prints. */
  datatype Registered = Registered(names: seq<string>, printed: seq<string>)

  /** The lines printed for the validation errors. */
  function ErrorLines(errors: seq<string>): seq<string>
  {
    if errors == [] then []
    else ["Errores encontrados en la validación de herramientas:"] + IndentedLines(errors)
  }

  function IndentedLines(errors: seq<string>): (r: seq<string>)
    ensures |r| == |errors|
  {
    if errors == [] then [] else ["  - " + errors[0]] + IndentedLines(errors[1..])
  }

  /** One entry of the registration loop, once it has "name" and
      "description": an entry whose module does not load is skipped, a
      failed registration is printed and skipped. A hashable name that is
      not a string (None, a boolean, a number) names no module of the
      package and never loads. */
  function RegisterEntry(importer: Importer, register: string -> Option<string>,
                         entry: map<string, Json>, cache: map<string, ToolModule>, acc: Registered)
    : (map<string, ToolModule>, Registered)
    requires "name" in entry
  {
    if !entry["name"].JStr? then (cache, acc)
    else
      var n := entry["name"].s;
      var (mo, c) := LoadSpec(cache, importer, n);
      if mo.None? then (c, acc)
      else match register(n)
        case None => (c, Registered(acc.names + [n], acc.printed + ["Herramienta '" + n + "' registrada exitosamente"]))
        case Some(e) => (c, Registered(acc.names, acc.printed + ["Error registrando herramienta '" + n + "': " + e]))
  }

  /** A name the cache's `in` can look up: Python refuses to hash a list
      or a dict. */
  predicate Hashable(name: Json)
  {
    !name.JArr? && !name.JObj?
  }

  /** The TypeError `load_tool_module` raises for an unhashable name. */
  function UnhashableError(name: Json): string
  {
    UnhashableMessage(if name.JArr? then "list" else "dict")
  }

  /** The registration loop over `tools` from the cache `cache`: an entry
      without "name" or "description" raises KeyError, and one whose name
      is a list or an object (an empty one passes validation) raises the
      cache lookup's TypeError; both escape. */
  function RegisterFrom(importer: Importer, register: string -> Option<string>,
                        tools: seq<map<string, Json>>, cache: map<string, ToolModule>, acc: Registered)
    : (Result<Registered, string>, map<string, ToolModule>)
    decreases |tools|
  {
    if tools == [] then (Ok(acc), cache)
    else if "name" !in tools[0] then (Err("'name'"), cache)
    else if "description" !in tools[0] then (Err("'description'"), cache)
    else if !Hashable(tools[0]["name"]) then (Err(UnhashableError(tools[0]["name"])), cache)
    else
      var (c, next) := RegisterEntry(importer, register, tools[0], cache, acc);
      RegisterFrom(importer, register, tools[1..], c, next)
  }

  /** The entry's name, when it is a string whose module loads and whose
      registration succeeds. */
  function EntryRegistrable(importer: Importer, register: string -> Option<string>, entry: map<string, Json>): seq<string>
  {
    if "name" in entry && entry["name"].JStr? && Loadable(importer, entry["name"].s)
       && register(entry["name"].s).None?
    then [entry["name"].s] else []
  }

  /** The names of the string-named entries whose module loads and whose
      registration succeeds, in list order. */
  function Registrable(importer: Importer, register: string -> Option<string>, tools: seq<map<string, Json>>): seq<string>
  {
    if tools == [] then []
    else EntryRegistrable(importer, register, tools[0]) + Registrable(importer, register, tools[1..])
  }

  /** Every entry has both keys register_tools reads, and a name the
      cache lookup can hash. */
  predicate Complete(tools: seq<map<string, Json>>)
  {
    forall i :: 0 <= i < |tools| ==> "name" in tools[i] && "description" in tools[i] && Hashable(tools[i]["name"])
  }

  lemma CompleteCons(tools: seq<map<string, Json>>)
    requires tools != []
    ensures Complete(tools) <==> "name" in tools[0] && "description" in tools[0] && Hashable(tools[0]["name"])
                                 && Complete(tools[1..])
  {
    if "name" in tools[0] && "description" in tools[0] && Hashable(tools[0]["name"]) && Complete(tools[1..]) {
      forall i | 0 <= i < |tools| ensures "name" in tools[i] && "description" in tools[i] && Hashable(tools[i]["name"]) {
        if i > 0 {
          assert tools[i] == tools[1..][i - 1];
        }
      }
    }
  }

  /** One entry keeps the cache faithful and registers exactly its
      registrable name. */
  lemma RegisterEntryReports(importer: Importer, register: string -> Option<string>,
                             entry: map<string, Json>, cache: map<string, ToolModule>, acc: Registered)
    requires "name" in entry && Faithful(cache, importer)
    ensures var (c, next) := RegisterEntry(importer, register, entry, cache, acc);
      Faithful(c, importer) && next.names == acc.names + EntryRegistrable(importer, register, entry)
  {
    if entry["name"].JStr? {
      LoadTransparent(cache, importer, entry["name"].s);
    }
  }

  /** From a faithful cache, the loop raises exactly when some entry lacks
      "name" or "description" or is named by a list or an object; otherwise it registers exactly the loadable
      string-named entries whose registration succeeds, in list order, and
      the cache stays faithful. */
  lemma {:induction false} RegisterOutcome(importer: Importer, register: string -> Option<string>,
                                           tools: seq<map<string, Json>>, cache: map<string, ToolModule>, acc: Registered)
    requires Faithful(cache, importer)
    ensures var (r, after) := RegisterFrom(importer, register, tools, cache, acc);
      && (r.Ok? <==> Complete(tools))
      && (r.Ok? ==> r.value.names == acc.names + Registrable(importer, register, tools))
      && Faithful(after, importer)
    decreases |tools|
  {
    if tools != [] {
      CompleteCons(tools);
      if "name" in tools[0] && "description" in tools[0] && Hashable(tools[0]["name"]) {
        var (c, next) := RegisterEntry(importer, register, tools[0], cache, acc);
        RegisterEntryReports(importer, register, tools[0], cache, acc);
        RegisterOutcome(importer, register, tools[1..], c, next);
        AppendAssoc(acc.names, EntryRegistrable(importer, register, tools[0]), Registrable(importer, register, tools[1..]));
      }
    }
  }

  /** An entry named by an empty list passes validation as nameless, and
      the registration loop then raises the cache lookup's TypeError. */
  lemma EmptyListNameRaises(importer: Importer, register: string -> Option<string>,
                            cache: map<string, ToolModule>, loaded: map<string, Option<Executor>>)
    ensures var entry := map["name" := JArr([]), "description" := JStr("d")];
      var v := ValidateFrom(importer, [entry], Validation([], cache, loaded, None));
      && v.raised.None? && v.errors == [NamelessError]
      && RegisterFrom(importer, register, [entry], v.cache, Registered([], ErrorLines(v.errors))).0
           == Err("unhashable type: 'list'")
  {
    var entry := map["name" := JArr([]), "description" := JStr("d")];
    assert EntryName(entry).Nameless?;
    var tools := [entry];
    assert tools[1..] == [];
    assert !Hashable(entry["name"]);
    assert UnhashableError(entry["name"]) == UnhashableMessage("list") == "unhashable type: 'list'";
    var v := ValidateFrom(importer, tools, Validation([], cache, loaded, None));
    assert RegisterFrom(importer, register, tools, v.cache, Registered([], ErrorLines(v.errors))).0
           == Err(UnhashableError(entry["name"]));
  }

  /** `register_tools(mcp)`: the tool list, the validation pass (its errors
      are printed first), then the registration loop. Err carries the text
      of the exception that escapes: the validation pass's TypeError, or
      the loop's KeyError or TypeError. */
  method RegisterTools(m: ToolsManager, register: string -> Option<string>)
    returns (r: Result<Registered, string>)
    modifies m
    ensures var v := ValidateFrom(m.importer, AvailableTools(m.listFile),
                                  Validation([], old(m.toolsCache), old(m.toolsLoaded), None));
      && m.toolsLoaded == v.loaded
      && (v.raised.Some? ==> r == Err(v.raised.value) && m.toolsCache == v.cache)
      && (v.raised.None? ==>
            (r, m.toolsCache) == RegisterFrom(m.importer, register, AvailableTools(m.listFile), v.cache,
                                              Registered([], ErrorLines(v.errors))))
  {
    var toolsList := m.GetAvailableTools();
    var errors, raised := m.ValidateToolStructure();
    if raised.Some? {
      return Err(raised.value);
    }
    ghost var afterValidation := m.toolsCache;
    var acc := Registered([], ErrorLines(errors));
    var i := 0;
    while i < |toolsList|
      invariant 0 <= i <= |toolsList|
      invariant m.toolsLoaded == ValidateFrom(m.importer, toolsList,
                                  Validation([], old(m.toolsCache), old(m.toolsLoaded), None)).loaded
      invariant RegisterFrom(m.importer, register, toolsList[i..], m.toolsCache, acc)
                == RegisterFrom(m.importer, register, toolsList, afterValidation, Registered([], ErrorLines(errors)))
    {
      assert toolsList[i..][1..] == toolsList[i + 1..];
      var entry := toolsList[i];
      i := i + 1;
      if "name" !in entry {
        return Err("'name'");
      }
      if "description" !in entry {
        return Err("'description'");
      }
      if !Hashable(entry["name"]) {
        return Err(UnhashableError(entry["name"]));
      }
      if !entry["name"].JStr? {
        continue;
      }
      var name := entry["name"].s;
      var mo := m.LoadToolModule(name);
      if mo.None? {
        continue;
      }
      var failed := register(name);
      if failed.None? {
        acc := Registered(acc.names + [name], acc.printed + ["Herramienta '" + name + "' registrada exitosamente"]);
      } else {
        acc := Registered(acc.names, acc.printed + ["Error registrando herramienta '" + name + "': " + failed.value]);
      }
    }
    assert toolsList[i..] == [];
    r := Ok(acc);
  }
}
