/** The tool manager of mcp_app/tools_manager.py: it reads the tool list
    file, imports `mcp_app.tools.<name>` on demand and keeps every module
    that has an `execute` function in a cache, so each tool is imported at
    most once. The importer and the list file are given: the importer maps
    a tool name to the module it imports or the failure it raises. */
module ToolsManager {
  import opened Common

  /** A tool's `execute(arguments)`: its result, or the text of the
      exception it raises. */
  type Executor = Json -> Result<Json, string>

  /** An imported tool module: its `execute` attribute, if it has one. */
  datatype ToolModule = ToolModule(execute: Option<Executor>)

  /** What `importlib.import_module("mcp_app.tools." + name)` does. */
  datatype Import = ImportFails(message: string) | Imported(tool: ToolModule)

  type Importer = string -> Import

  /** The tool list file: missing, not valid JSON, or a list of entries. */
  datatype ListFile = NotFound | BadJson | Entries(tools: seq<map<string, Json>>)

  /** A module the manager accepts: it imports and has `execute`. */
  predicate Loadable(importer: Importer, name: string)
  {
    importer(name).Imported? && importer(name).tool.execute.Some?
  }

  /** `load_tool_module(name)` against the cache `cache`: the module (None
      after a failed import or without `execute`) and the cache afterwards. */
  function LoadSpec(cache: map<string, ToolModule>, importer: Importer, name: string)
    : (r: (Option<ToolModule>, map<string, ToolModule>))
    ensures name in cache ==> r == (Some(cache[name]), cache)
    ensures name !in cache && Loadable(importer, name) ==>
      r == (Some(importer(name).tool), cache[name := importer(name).tool])
    ensures name !in cache && !Loadable(importer, name) ==> r == (None, cache)
  {
    if name in cache then (Some(cache[name]), cache)
    else match importer(name)
      case ImportFails(_) => (None, cache)
      case Imported(m) =>
        if m.execute.None? then (None, cache) else (Some(m), cache[name := m])
  }

  /** Every cached module is what the importer gives for its name, and has
      `execute`. */
  ghost predicate Faithful(cache: map<string, ToolModule>, importer: Importer)
  {
    forall n :: n in cache ==> Loadable(importer, n) && cache[n] == importer(n).tool
  }

  /** `execute_tool(name, arguments)`: the result, or the message of the
      ValueError it raises, and the cache afterwards. */
  function ExecuteSpec(cache: map<string, ToolModule>, importer: Importer, name: string, arguments: Json)
    : (Result<Json, string>, map<string, ToolModule>)
  {
    var (m, after) := LoadSpec(cache, importer, name);
    if m.None? then (Err("No se pudo cargar la herramienta '" + name + "'"), after)
    else if m.value.execute.None? then (Err("Error ejecutando la herramienta '" + name + "': module 'mcp_app.tools." + name + "' has no attribute 'execute'"), after)
    else match m.value.execute.value(arguments)
      case Ok(v) => (Ok(v), after)
      case Err(e) => (Err("Error ejecutando la herramienta '" + name + "': " + e), after)
  }

  /** `get_available_tools()`: the entries, or none when the file is
      missing or not valid JSON. */
  function AvailableTools(file: ListFile): (r: seq<map<string, Json>>)
    ensures file.Entries? ==> r == file.tools
    ensures !file.Entries? ==> r == []
  {
    if file.Entries? then file.tools else []
  }

  /** What `validate_tool_structure` makes of `tool.get("name")`: a falsy
      value is no name; a string is a module name; a true boolean or a
      non-zero integer is formatted into the module path as `str()` shows
      it; a non-empty list or object cannot be looked up in the cache,
      whose `in` raises TypeError with this type name. */
  datatype ToolName = Nameless | Named(name: string) | Shown(text: string) | Unhashable(typeName: string)

  function EntryName(entry: map<string, Json>): (r: ToolName)
    ensures r.Nameless? <==> "name" !in entry || !Truthy(entry["name"])
    ensures r.Named? <==> "name" in entry && entry["name"].JStr? && entry["name"].s != ""
    ensures r.Named? ==> r.name == entry["name"].s
    ensures r.Unhashable? <==> "name" in entry && Truthy(entry["name"]) && (entry["name"].JArr? || entry["name"].JObj?)
  {
    if "name" !in entry || !Truthy(entry["name"]) then Nameless
    else match entry["name"]
      case JStr(s) => Named(s)
      case JBool(_) => Shown("True")
      case JInt(i) => Shown(IntToString(i))
      case JArr(_) => Unhashable("list")
      case JObj(_) => Unhashable("dict")
      case JNull => Nameless
  }

  /** The first entry whose name is `name`; None exactly when no entry
      has that name. */
  function FirstNamed(tools: seq<map<string, Json>>, name: string): (r: Option<map<string, Json>>)
    ensures r.None? <==> forall i :: 0 <= i < |tools| ==> Get(tools[i], "name") != Some(JStr(name))
  {
    if tools == [] then None
    else if Get(tools[0], "name") == Some(JStr(name)) then Some(tools[0])
    else FirstNamed(tools[1..], name)
  }

  /** A found entry is the first with that name. */
  lemma {:induction false} FirstNamedIsFirst(tools: seq<map<string, Json>>, name: string) returns (i: nat)
    requires FirstNamed(tools, name).Some?
    ensures i < |tools| && tools[i] == FirstNamed(tools, name).value
    ensures Get(tools[i], "name") == Some(JStr(name))
    ensures forall j :: 0 <= j < i ==> Get(tools[j], "name") != Some(JStr(name))
  {
    if Get(tools[0], "name") == Some(JStr(name)) {
      i := 0;
    } else {
      var k := FirstNamedIsFirst(tools[1..], name);
      i := k + 1;
      assert forall j :: 1 <= j < i ==> tools[j] == tools[1..][j - 1];
    }
  }

  /** What one pass of `validate_tool_structure` produces; `raised` holds
      the message of the TypeError that ended it, if one did. */
  datatype Validation = Validation(errors: seq<string>, cache: map<string, ToolModule>,
                                   loaded: map<string, Option<Executor>>, raised: Option<string>)

  const NamelessError := "Herramienta sin nombre encontrada en tools_list.json"

  function UnloadableError(name: string): string
  {
    "No se pudo cargar el módulo para '" + name + "'"
  }

  function NoExecuteError(name: string): string
  {
    "El módulo '" + name + "' no tiene función 'execute'"
  }

  function UnhashableMessage(typeName: string): string
  {
    "unhashable type: '" + typeName + "'"
  }

  /** One pass of the loop of `validate_tool_structure` over `entry`: a
      nameless entry and an entry whose module does not load add an error
      and are skipped; any other entry's `execute` is recorded in
      `tools_loaded`. A name shown as a number or `True` is never in the
      cache, whose keys are strings, and names no module of the package;
      a list or object name makes the cache lookup raise. */
  function ValidateStep(importer: Importer, entry: map<string, Json>, v: Validation): Validation
  {
    match EntryName(entry)
    case Nameless => v.(errors := v.errors + [NamelessError])
    case Shown(t) => v.(errors := v.errors + [UnloadableError(t)])
    case Unhashable(t) => v.(raised := Some(UnhashableMessage(t)))
    case Named(n) =>
      var (m, c) := LoadSpec(v.cache, importer, n);
      if m.None? then v.(errors := v.errors + [UnloadableError(n)], cache := c)
      else
        var errs := if m.value.execute.None? then v.errors + [NoExecuteError(n)] else v.errors;
        v.(errors := errs, cache := c, loaded := v.loaded[n := m.value.execute])
  }

  /** The whole loop over `tools`, from the state `v`; it stops once an
      exception has been raised. */
  function ValidateFrom(importer: Importer, tools: seq<map<string, Json>>, v: Validation): Validation
    decreases |tools|
  {
    if tools == [] || v.raised.Some? then v
    else ValidateFrom(importer, tools[1..], ValidateStep(importer, tools[0], v))
  }

  /** The error an entry should give: one when it is nameless or its module
      does not load. */
  function EntryErrors(importer: Importer, entry: map<string, Json>): seq<string>
  {
    match EntryName(entry)
    case Nameless => [NamelessError]
    case Shown(t) => [UnloadableError(t)]
    case Unhashable(_) => []
    case Named(n) => if Loadable(importer, n) then [] else [UnloadableError(n)]
  }

  /** The name an entry should record: its own, when its module loads. */
  function EntryLoaded(importer: Importer, entry: map<string, Json>): set<string>
  {
    match EntryName(entry)
    case Named(n) => if Loadable(importer, n) then {n} else {}
    case _ => {}
  }

  /** The entries that `validate_tool_structure` reports: nameless ones and
      those whose module cannot be loaded, in order, up to the first entry
      whose name cannot be looked up. */
  function ExpectedErrors(importer: Importer, tools: seq<map<string, Json>>): seq<string>
  {
    if tools == [] || EntryName(tools[0]).Unhashable? then []
    else EntryErrors(importer, tools[0]) + ExpectedErrors(importer, tools[1..])
  }

  /** The names of the entries whose module loads, up to the first entry
      whose name cannot be looked up. */
  function LoadedNames(importer: Importer, tools: seq<map<string, Json>>): set<string>
  {
    if tools == [] || EntryName(tools[0]).Unhashable? then {}
    else EntryLoaded(importer, tools[0]) + LoadedNames(importer, tools[1..])
  }

  /** The exception of the first entry whose name cannot be looked up. */
  function FirstUnhashable(tools: seq<map<string, Json>>): (r: Option<string>)
    ensures r.None? <==> forall i :: 0 <= i < |tools| ==> !EntryName(tools[i]).Unhashable?
  {
    if tools == [] then None
    else if EntryName(tools[0]).Unhashable? then Some(UnhashableMessage(EntryName(tools[0]).typeName))
    else FirstUnhashable(tools[1..])
  }

  class ToolsManager {
    const importer: Importer
    const listFile: ListFile
    var toolsCache: map<string, ToolModule>
    var toolsLoaded: map<string, Option<Executor>>

    constructor (importer: Importer, listFile: ListFile)
      ensures this.importer == importer && this.listFile == listFile
      ensures toolsCache == map[] && toolsLoaded == map[]
    {
      this.importer := importer;
      this.listFile := listFile;
      toolsCache := map[];
      toolsLoaded := map[];
    }

    /** `get_available_tools()`. */
    function GetAvailableTools(): (r: seq<map<string, Json>>)
      ensures listFile.NotFound? || listFile.BadJson? ==> r == []
      ensures listFile.Entries? ==> r == listFile.tools
    {
      AvailableTools(listFile)
    }

    /** `load_tool_module(name)`. */
    method LoadToolModule(name: string) returns (m: Option<ToolModule>)
      modifies this
      ensures (m, toolsCache) == LoadSpec(old(toolsCache), importer, name)
      ensures toolsLoaded == old(toolsLoaded)
    {
      if name in toolsCache {
        return Some(toolsCache[name]);
      }
      var imported := importer(name);
      if imported.ImportFails? {
        return None;
      }
      if imported.tool.execute.None? {
        return None;
      }
      toolsCache := toolsCache[name := imported.tool];
      m := Some(imported.tool);
    }

    /** `execute_tool(name, arguments)`; Err carries the ValueError's text. */
    method ExecuteTool(name: string, arguments: Json) returns (r: Result<Json, string>)
      modifies this
      ensures (r, toolsCache) == ExecuteSpec(old(toolsCache), importer, name, arguments)
      ensures toolsLoaded == old(toolsLoaded)
    {
      var m := LoadToolModule(name);
      if m.None? {
        return Err("No se pudo cargar la herramienta '" + name + "'");
      }
      if m.value.execute.None? {
        return Err("Error ejecutando la herramienta '" + name + "': module 'mcp_app.tools." + name + "' has no attribute 'execute'");
      }
      var out := m.value.execute.value(arguments);
      if out.Err? {
        return Err("Error ejecutando la herramienta '" + name + "': " + out.error);
      }
      r := out;
    }

    /** `get_tool_info(name)`. */
    method GetToolInfo(name: string) returns (r: Option<map<string, Json>>)
      ensures r == FirstNamed(AvailableTools(listFile), name)
    {
      var tools := GetAvailableTools();
      var i := 0;
      while i < |tools|
        invariant 0 <= i <= |tools|
        invariant FirstNamed(tools[i..], name) == FirstNamed(tools, name)
      {
        assert tools[i..][1..] == tools[i + 1..];
        if Get(tools[i], "name") == Some(JStr(name)) {
          return Some(tools[i]);
        }
        i := i + 1;
      }
      return None;
    }

    /** `validate_tool_structure()`; `raised` is the message of the
        TypeError that escapes it, if one does. */
    method ValidateToolStructure() returns (errors: seq<string>, raised: Option<string>)
      modifies this
      ensures ValidateFrom(importer, AvailableTools(listFile), Validation([], old(toolsCache), old(toolsLoaded), None))
              == Validation(errors, toolsCache, toolsLoaded, raised)
    {
      errors := [];
      raised := None;
      var tools := GetAvailableTools();
      var i := 0;
      while i < |tools|
        invariant 0 <= i <= |tools|
        invariant raised.None?
        invariant ValidateFrom(importer, tools[i..], Validation(errors, toolsCache, toolsLoaded, None))
                  == ValidateFrom(importer, tools, Validation([], old(toolsCache), old(toolsLoaded), None))
      {
        assert tools[i..][1..] == tools[i + 1..];
        var entry := tools[i];
        var name := EntryName(entry);
        i := i + 1;
        match name {
          case Nameless =>
            errors := errors + [NamelessError];
          case Shown(t) =>
            errors := errors + [UnloadableError(t)];
          case Unhashable(t) =>
            raised := Some(UnhashableMessage(t));
            return;
          case Named(n) =>
            var m := LoadToolModule(n);
            if m.None? {
              errors := errors + [UnloadableError(n)];
              continue;
            }
            if m.value.execute.None? {
              errors := errors + [NoExecuteError(n)];
            }
            toolsLoaded := toolsLoaded[n := m.value.execute];
        }
      }
      assert tools[i..] == [];
    }
  }

  /** With a faithful cache, loading gives what a fresh import gives: the
      cache is invisible except for saving the import. */
  lemma LoadTransparent(cache: map<string, ToolModule>, importer: Importer, name: string)
    requires Faithful(cache, importer)
    ensures var (m, after) := LoadSpec(cache, importer, name);
      && (m.Some? <==> Loadable(importer, name))
      && (m.Some? ==> m.value == importer(name).tool && m.value.execute.Some?)
      && Faithful(after, importer)
      && after.Keys == cache.Keys + (if Loadable(importer, name) then {name} else {})
  {
  }

  /** A tool is imported at most once: a second load finds it in the cache
      and changes nothing. */
  lemma LoadMemoised(cache: map<string, ToolModule>, importer: Importer, name: string)
    requires LoadSpec(cache, importer, name).0.Some?
    ensures var after := LoadSpec(cache, importer, name).1;
      LoadSpec(after, importer, name) == (LoadSpec(cache, importer, name).0, after)
  {
  }

  /** `execute_tool` fails with "No se pudo cargar" exactly for a tool that
      does not load; otherwise it gives the tool's own result, or its
      exception's text behind the manager's prefix. */
  lemma ExecuteOutcome(cache: map<string, ToolModule>, importer: Importer, name: string, arguments: Json)
    requires Faithful(cache, importer)
    ensures var r := ExecuteSpec(cache, importer, name, arguments).0;
      && (!Loadable(importer, name) ==> r == Err("No se pudo cargar la herramienta '" + name + "'"))
      && (Loadable(importer, name) ==>
            var out := importer(name).tool.execute.value(arguments);
            && (out.Ok? ==> r == out)
            && (out.Err? ==> r == Err("Error ejecutando la herramienta '" + name + "': " + out.error)))
      && Faithful(ExecuteSpec(cache, importer, name, arguments).1, importer)
  {
    LoadTransparent(cache, importer, name);
  }

  /** One entry from a faithful cache adds the error it should, keeps the
      cache faithful and records the name it should; only a list or object
      name raises. */
  lemma ValidateStepReports(importer: Importer, entry: map<string, Json>, v: Validation)
    requires Faithful(v.cache, importer) && v.raised.None?
    ensures var w := ValidateStep(importer, entry, v);
      && w.errors == v.errors + EntryErrors(importer, entry)
      && Faithful(w.cache, importer)
      && w.loaded.Keys == v.loaded.Keys + EntryLoaded(importer, entry)
      && (w.raised.Some? <==> EntryName(entry).Unhashable?)
      && (w.raised.Some? ==> w.raised.value == UnhashableMessage(EntryName(entry).typeName))
  {
    if EntryName(entry).Named? {
      LoadTransparent(v.cache, importer, EntryName(entry).name);
    }
  }

  /** From a faithful cache, validation reports exactly the nameless and
      the unloadable entries, in order, keeps the cache faithful, and
      records every loadable entry in `tools_loaded`, up to the first
      entry named by a list or an object, whose TypeError ends it. */
  lemma {:induction false} ValidateReports(importer: Importer, tools: seq<map<string, Json>>, v: Validation)
    requires Faithful(v.cache, importer) && v.raised.None?
    ensures var w := ValidateFrom(importer, tools, v);
      && w.errors == v.errors + ExpectedErrors(importer, tools)
      && Faithful(w.cache, importer)
      && w.loaded.Keys == v.loaded.Keys + LoadedNames(importer, tools)
      && w.raised == FirstUnhashable(tools)
    decreases |tools|
  {
    if tools != [] {
      var next := ValidateStep(importer, tools[0], v);
      ValidateStepReports(importer, tools[0], v);
      if !EntryName(tools[0]).Unhashable? {
        ValidateReports(importer, tools[1..], next);
        AppendAssoc(v.errors, EntryErrors(importer, tools[0]), ExpectedErrors(importer, tools[1..]));
      }
    }
  }
}
