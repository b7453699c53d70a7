/** The operation processor of mcp_app/processor.py: a table of function
    definitions keyed by their "name", `run` dispatching an operation to a
    query on the model the operation names ("get_cortes" queries Cortes),
    and `execute_chain` running a list of steps into a context keyed by
    operation. The definitions file is given already decoded; the installed
    models are their class names in `apps.get_models()` order, and the ORM
    query `Model.objects.filter(**filters).values()` is the `query`
    parameter. */
module Processor {
  import opened Common

  /** The exceptions `run` and `execute_chain` let escape, with their text. */
  datatype Raised = ValueError(msg: string) | NotImplementedError(msg: string) | OtherError(msg: string)

  /** Python's type name of a JSON value. */
  function TypeName(v: Json): string
  {
    match v
    case JNull => "NoneType"
    case JBool(_) => "bool"
    case JInt(_) => "int"
    case JStr(_) => "str"
    case JArr(_) => "list"
    case JObj(_) => "dict"
  }

  /** The processor's surroundings: the model class names, the ORM query on
      a model with its filters, Python's `str()` of a value, and the text
      of the exception `v[key]` raises on a value that is not an object. */
  datatype Env = Env(models: seq<string>, query: (string, Json) -> Result<Json, string>,
                     pyStr: Json -> string, indexFailure: Json -> string)

  /** A Python dict: its keys in first-insertion order, and its table. */
  datatype Dict = Dict(keys: seq<Json>, table: map<Json, Json>)

  /** The keys are listed once each and are exactly the table's. */
  ghost predicate WellFormed(d: Dict)
  {
    && (forall i, j :: 0 <= i < j < |d.keys| ==> d.keys[i] != d.keys[j])
    && (forall k :: k in d.table <==> k in d.keys)
  }

  /** `d[key] = value`: a new key goes to the end, an existing one keeps its
      place and takes the new value. */
  function Insert(d: Dict, key: Json, value: Json): (r: Dict)
    ensures r.table == d.table[key := value]
    ensures key in d.keys ==> r.keys == d.keys
    ensures key !in d.keys ==> r.keys == d.keys + [key]
  {
    Dict(if key in d.keys then d.keys else d.keys + [key], d.table[key := value])
  }

  /** A dict filled in item order, each item giving a key and a value or
      raising: the dict comprehension of `__init__` and the loop of
      `execute_chain` both have this form. The first item that raises ends
      it. */
  function Collect(entry: Json -> Result<(Json, Json), Raised>, items: seq<Json>): Result<Dict, Raised>
    decreases |items|
  {
    if items == [] then Ok(Dict([], map[]))
    else match Collect(entry, items[..|items| - 1])
      case Err(e) => Err(e)
      case Ok(d) =>
        match entry(items[|items| - 1])
        case Err(e) => Err(e)
        case Ok(kv) => Ok(Insert(d, kv.0, kv.1))
  }

  /** The fold succeeds exactly when no item raises. */
  lemma {:induction false} CollectOk(entry: Json -> Result<(Json, Json), Raised>, items: seq<Json>)
    ensures Collect(entry, items).Ok? <==> forall i :: 0 <= i < |items| ==> entry(items[i]).Ok?
    decreases |items|
  {
    if items != [] {
      var init := items[..|items| - 1];
      CollectOk(entry, init);
      assert forall i :: 0 <= i < |init| ==> init[i] == items[i];
    }
  }

  /** A successful fold lists each key once, holds exactly the items' keys,
      and maps each key to the value of the last item with that key. */
  lemma CollectTable(entry: Json -> Result<(Json, Json), Raised>, items: seq<Json>)
    requires Collect(entry, items).Ok?
    ensures forall i :: 0 <= i < |items| ==> entry(items[i]).Ok?
    ensures var d := Collect(entry, items).value;
      && WellFormed(d)
      && (forall k :: k in d.table <==> exists i :: 0 <= i < |items| && entry(items[i]).value.0 == k)
      && (forall i :: 0 <= i < |items| && LastWithKey(entry, items, i) ==>
            d.table[entry(items[i]).value.0] == entry(items[i]).value.1)
  {
    CollectOk(entry, items);
    CollectKeys(entry, items);
    CollectLast(entry, items);
  }

  /** The items before the last one. */
  lemma InitItems(items: seq<Json>)
    requires items != []
    ensures forall i :: 0 <= i < |items| - 1 ==> items[..|items| - 1][i] == items[i]
  {
  }

  lemma {:induction false} CollectWellFormed(entry: Json -> Result<(Json, Json), Raised>, items: seq<Json>)
    requires Collect(entry, items).Ok?
    ensures WellFormed(Collect(entry, items).value)
    decreases |items|
  {
    if items != [] {
      var init := items[..|items| - 1];
      CollectWellFormed(entry, init);
      var d := Collect(entry, init).value;
      var kv := entry(items[|items| - 1]).value;
      assert Collect(entry, items).value == Insert(d, kv.0, kv.1);
    }
  }

  lemma CollectKeys(entry: Json -> Result<(Json, Json), Raised>, items: seq<Json>)
    requires Collect(entry, items).Ok?
    ensures var d := Collect(entry, items).value;
      && WellFormed(d)
      && (forall k :: k in d.table <==> exists i :: 0 <= i < |items| && entry(items[i]).Ok? && entry(items[i]).value.0 == k)
  {
    CollectWellFormed(entry, items);
    CollectKeySet(entry, items);
  }

  /** Some item of `items` gives the key `k`. */
  ghost predicate Yields(entry: Json -> Result<(Json, Json), Raised>, items: seq<Json>, k: Json)
  {
    exists i :: 0 <= i < |items| && entry(items[i]).Ok? && entry(items[i]).value.0 == k
  }

  /** An item yields `k` when an earlier one does or the last one does. */
  lemma YieldsSnoc(entry: Json -> Result<(Json, Json), Raised>, items: seq<Json>, k: Json)
    requires items != []
    ensures Yields(entry, items, k) <==>
      Yields(entry, items[..|items| - 1], k) || (entry(items[|items| - 1]).Ok? && entry(items[|items| - 1]).value.0 == k)
  {
    var init := items[..|items| - 1];
    if Yields(entry, init, k) {
      var i :| 0 <= i < |init| && entry(init[i]).Ok? && entry(init[i]).value.0 == k;
      assert init[i] == items[i];
    }
    if Yields(entry, items, k) && !(entry(items[|items| - 1]).Ok? && entry(items[|items| - 1]).value.0 == k) {
      var i :| 0 <= i < |items| && entry(items[i]).Ok? && entry(items[i]).value.0 == k;
      assert init[i] == items[i];
    }
  }

  lemma {:induction false} CollectKeySet(entry: Json -> Result<(Json, Json), Raised>, items: seq<Json>)
    requires Collect(entry, items).Ok?
    ensures var d := Collect(entry, items).value;
      forall k :: k in d.table <==> Yields(entry, items, k)
    decreases |items|
  {
    if items != [] {
      var init := items[..|items| - 1];
      CollectKeySet(entry, init);
      var kv := entry(items[|items| - 1]).value;
      var d := Collect(entry, items).value;
      assert d.table == Collect(entry, init).value.table[kv.0 := kv.1];
      forall k
        ensures k in d.table <==> Yields(entry, items, k)
      {
        YieldsSnoc(entry, items, k);
      }
    }
  }

  lemma {:induction false} CollectLast(entry: Json -> Result<(Json, Json), Raised>, items: seq<Json>)
    requires Collect(entry, items).Ok?
    requires forall i :: 0 <= i < |items| ==> entry(items[i]).Ok?
    ensures forall i :: 0 <= i < |items| ==> entry(items[i]).value.0 in Collect(entry, items).value.table
    ensures var d := Collect(entry, items).value;
      forall i :: 0 <= i < |items| && LastWithKey(entry, items, i) ==>
        d.table[entry(items[i]).value.0] == entry(items[i]).value.1
    decreases |items|
  {
    CollectKeys(entry, items);
    if items != [] {
      var init := items[..|items| - 1];
      var last := |items| - 1;
      InitItems(items);
      CollectLast(entry, init);
      var d := Collect(entry, items).value;
      forall i | 0 <= i < |items| && LastWithKey(entry, items, i)
        ensures d.table[entry(items[i]).value.0] == entry(items[i]).value.1
      {
        if i < last {
          assert entry(items[last]).value.0 != entry(items[i]).value.0;
          assert LastWithKey(entry, init, i);
        }
      }
    }
  }

  /** No later item has the same key as item `i`. */
  ghost predicate LastWithKey(entry: Json -> Result<(Json, Json), Raised>, items: seq<Json>, i: int)
    requires 0 <= i < |items| && forall j :: 0 <= j < |items| ==> entry(items[j]).Ok?
  {
    forall j :: i < j < |items| ==> entry(items[j]).value.0 != entry(items[i]).value.0
  }

  /** A value usable as a dict key: not a list and not an object. */
  predicate Hashable(v: Json)
  {
    !v.JArr? && !v.JObj?
  }

  /** `func['name']: func` for one entry of the definitions file, or the
      exception reading the name raises. */
  function Definition(env: Env, entry: Json): Result<(Json, Json), Raised>
  {
    if !entry.JObj? then Err(OtherError(env.indexFailure(entry)))
    else if "name" !in entry.fields then Err(OtherError("'name'"))
    else if !Hashable(entry.fields["name"]) then Err(OtherError("unhashable type: '" + TypeName(entry.fields["name"]) + "'"))
    else Ok((entry.fields["name"], entry))
  }

  function DefinitionEntry(env: Env): Json -> Result<(Json, Json), Raised>
  {
    e => Definition(env, e)
  }

  /** `{func['name']: func for func in entries}`. */
  function Definitions(env: Env, entries: seq<Json>): Result<Dict, Raised>
  {
    Collect(DefinitionEntry(env), entries)
  }

  /** The table is built exactly when every entry is an object with a
      hashable "name"; its keys are those names, each listed once, and each
      maps to the last entry with that name. */
  lemma DefinitionsTable(env: Env, entries: seq<Json>)
    ensures Definitions(env, entries).Ok? <==> forall i :: 0 <= i < |entries| ==> Definition(env, entries[i]).Ok?
    ensures Definitions(env, entries).Ok? ==>
      var d := Definitions(env, entries).value;
      && WellFormed(d)
      && (forall k :: k in d.table <==> exists i :: 0 <= i < |entries| && Definition(env, entries[i]).value.0 == k)
      && (forall i :: 0 <= i < |entries| && LastWithKey(DefinitionEntry(env), entries, i) ==>
            d.table[Definition(env, entries[i]).value.0] == entries[i])
  {
    var entry := DefinitionEntry(env);
    forall i | 0 <= i < |entries| ensures entry(entries[i]) == Definition(env, entries[i]) {
    }
    CollectOk(entry, entries);
    if Definitions(env, entries).Ok? {
      CollectTable(entry, entries);
    }
  }

  /** `get_model_class(model_name)`: the first installed model whose name
      matches case-insensitively. */
  function ModelClass(models: seq<string>, modelName: string): (r: Result<string, Raised>)
    ensures r.Err? <==> forall i :: 0 <= i < |models| ==> Lower(models[i]) != Lower(modelName)
    ensures r.Err? ==> r.error == ValueError("Modelo '" + modelName + "' no encontrado.")
    ensures r.Ok? ==> r.value in models && Lower(r.value) == Lower(modelName)
    decreases |models|
  {
    if models == [] then Err(ValueError("Modelo '" + modelName + "' no encontrado."))
    else if Lower(models[0]) == Lower(modelName) then Ok(models[0])
    else
      var r := ModelClass(models[1..], modelName);
      assert forall i :: 0 <= i < |models[1..]| ==> models[1..][i] == models[i + 1];
      r
  }

  /** The match found is the first one in `get_models()` order. */
  lemma {:induction false} ModelClassFirst(models: seq<string>, modelName: string, i: nat)
    requires i < |models| && Lower(models[i]) == Lower(modelName)
    requires forall j :: 0 <= j < i ==> Lower(models[j]) != Lower(modelName)
    ensures ModelClass(models, modelName) == Ok(models[i])
    decreases i
  {
    if i > 0 {
      ModelClassFirst(models[1..], modelName, i - 1);
    }
  }

  /** The model name of a "get_" operation: every "get_" removed, then
      capitalised. */
  function ModelName(operation: string): string
  {
    Capitalize(ReplaceAll(operation, "get_", ""))
  }

  /** `run(operation, parameters)`. */
  function Run(env: Env, d: Dict, operation: Json, parameters: Json): (r: Result<Json, Raised>)
  {
    if !Hashable(operation) then Err(OtherError("unhashable type: '" + TypeName(operation) + "'"))
    else if operation !in d.table then
      Err(ValueError("Operación '" + (if operation.JStr? then operation.s else env.pyStr(operation)) + "' no encontrada."))
    else if !operation.JStr? then Err(OtherError("'" + TypeName(operation) + "' object has no attribute 'startswith'"))
    else if StartsWith(operation.s, "get_") then
      match ModelClass(env.models, ModelName(operation.s))
      case Err(e) => Err(e)
      case Ok(m) =>
        if !parameters.JObj? then Err(OtherError("'" + TypeName(parameters) + "' object has no attribute 'get'"))
        else
          var filters := if "filters" in parameters.fields then parameters.fields["filters"] else JObj(map[]);
          match env.query(m, filters)
          case Ok(rows) => Ok(rows)
          case Err(e) => Err(OtherError(e))
    else Err(NotImplementedError("La operación '" + operation.s + "' no está implementada."))
  }

  /** `run` refuses an operation without a definition, and one that does
      not start with "get_" is not implemented. */
  lemma RunRefuses(env: Env, d: Dict, operation: string, parameters: Json)
    ensures JStr(operation) !in d.table ==>
      Run(env, d, JStr(operation), parameters) == Err(ValueError("Operación '" + operation + "' no encontrada."))
    ensures JStr(operation) in d.table && !StartsWith(operation, "get_") ==>
      Run(env, d, JStr(operation), parameters) == Err(NotImplementedError("La operación '" + operation + "' no está implementada."))
  {
  }

  /** A defined "get_" operation queries the model its model name
      matches, with the parameters' filters or `{}`. */
  lemma RunGet(env: Env, d: Dict, operation: string, parameters: map<string, Json>)
    requires JStr(operation) in d.table && StartsWith(operation, "get_")
    ensures Run(env, d, JStr(operation), JObj(parameters)) ==
      match ModelClass(env.models, ModelName(operation))
      case Err(e) => Err(e)
      case Ok(m) =>
        (match env.query(m, if "filters" in parameters then parameters["filters"] else JObj(map[]))
         case Ok(rows) => Ok(rows)
         case Err(e) => Err(OtherError(e)))
  {
  }

  /** For "get_" followed by a name without "get_", the model name is that
      name capitalised, and it matches a model exactly when the name does,
      case-insensitively. */
  lemma {:induction false} ModelNameOf(rest: string)
    requires !Contains(rest, "get_")
    ensures ModelName("get_" + rest) == Capitalize(rest)
    ensures Lower(ModelName("get_" + rest)) == Lower(rest)
  {
    var op := "get_" + rest;
    assert StartsWith(op, "get_");
    assert op[4..] == rest;
    assert ReplaceAll(op, "get_", "") == ReplaceAll(rest, "get_", "");
    ReplaceAllAbsent(rest, "get_", "");
    LowerCapitalize(rest);
  }

  /** A defined "get_" operation queries the first model whose name matches
      its own case-insensitively, with the step's filters or `{}`, and
      raises ValueError when no model matches. */
  lemma RunQueriesModel(env: Env, d: Dict, rest: string, parameters: map<string, Json>, i: nat)
    requires JStr("get_" + rest) in d.table
    requires !Contains(rest, "get_")
    ensures (forall j :: 0 <= j < |env.models| ==> Lower(env.models[j]) != Lower(rest)) ==>
      Run(env, d, JStr("get_" + rest), JObj(parameters)) == Err(ValueError("Modelo '" + Capitalize(rest) + "' no encontrado."))
    ensures i < |env.models| && Lower(env.models[i]) == Lower(rest)
            && (forall j :: 0 <= j < i ==> Lower(env.models[j]) != Lower(rest)) ==>
      Run(env, d, JStr("get_" + rest), JObj(parameters)) ==
        match env.query(env.models[i], if "filters" in parameters then parameters["filters"] else JObj(map[]))
        case Ok(rows) => Ok(rows)
        case Err(e) => Err(OtherError(e))
  {
    assert StartsWith("get_" + rest, "get_");
    ModelNameOf(rest);
    RunGet(env, d, "get_" + rest, parameters);
    if i < |env.models| && Lower(env.models[i]) == Lower(rest)
       && (forall j :: 0 <= j < i ==> Lower(env.models[j]) != Lower(rest)) {
      ModelClassFirst(env.models, ModelName("get_" + rest), i);
    }
  }

  /** One step of `execute_chain`: its operation (`step['operation']`),
      run with its parameters (default `{}`), and the result. */
  function ChainStep(env: Env, d: Dict, step: Json): Result<(Json, Json), Raised>
  {
    if !step.JObj? then Err(OtherError(env.indexFailure(step)))
    else if "operation" !in step.fields then Err(OtherError("'operation'"))
    else
      var operation := step.fields["operation"];
      var parameters := if "parameters" in step.fields then step.fields["parameters"] else JObj(map[]);
      match Run(env, d, operation, parameters)
      case Err(e) => Err(e)
      case Ok(result) => Ok((operation, result))
  }

  function ChainEntry(env: Env, d: Dict): Json -> Result<(Json, Json), Raised>
  {
    s => ChainStep(env, d, s)
  }

  /** `execute_chain(steps)`: each step's result under its operation. */
  function Chain(env: Env, d: Dict, steps: seq<Json>): Result<Dict, Raised>
  {
    Collect(ChainEntry(env, d), steps)
  }

  /** A chain fails exactly when a step does; a successful chain's context
      holds exactly the steps' operations, each listed once, and each maps
      to the result of its last step. */
  lemma ChainContext(env: Env, d: Dict, steps: seq<Json>)
    ensures Chain(env, d, steps).Ok? <==> forall i :: 0 <= i < |steps| ==> ChainStep(env, d, steps[i]).Ok?
    ensures Chain(env, d, steps).Ok? ==>
      var context := Chain(env, d, steps).value;
      && WellFormed(context)
      && (forall k :: k in context.table <==> exists i :: 0 <= i < |steps| && ChainStep(env, d, steps[i]).value.0 == k)
      && (forall i :: 0 <= i < |steps| && LastWithKey(ChainEntry(env, d), steps, i) ==>
            context.table[ChainStep(env, d, steps[i]).value.0] == ChainStep(env, d, steps[i]).value.1)
  {
    var entry := ChainEntry(env, d);
    CollectOk(entry, steps);
    if Chain(env, d, steps).Ok? {
      CollectTable(entry, steps);
    }
  }

  /** The fold over one more item. */
  lemma CollectSnoc(entry: Json -> Result<(Json, Json), Raised>, items: seq<Json>, i: nat, d: Dict)
    requires i < |items| && Collect(entry, items[..i]) == Ok(d)
    ensures Collect(entry, items[..i + 1]) ==
      match entry(items[i])
      case Err(e) => Err(e)
      case Ok(kv) => Ok(Insert(d, kv.0, kv.1))
  {
    assert items[..i + 1][..i] == items[..i];
  }

  /** A failure after the first `n` steps is the whole fold's failure. */
  lemma {:induction false} CollectStopsAt(entry: Json -> Result<(Json, Json), Raised>, items: seq<Json>, n: nat)
    requires n <= |items| && Collect(entry, items[..n]).Err?
    ensures Collect(entry, items) == Collect(entry, items[..n])
    decreases |items| - n
  {
    if n < |items| {
      assert items[..n + 1][..n] == items[..n];
      CollectStopsAt(entry, items, n + 1);
    } else {
      assert items[..n] == items;
    }
  }

  class MCPProcessor {
    const env: Env
    var definitions: Dict

    /** `MCPProcessor(path)` on the decoded contents of the definitions
        file. */
    constructor (env: Env, entries: seq<Json>)
      requires Definitions(env, entries).Ok?
      ensures this.env == env && definitions == Definitions(env, entries).value
    {
      this.env := env;
      definitions := Definitions(env, entries).value;
    }

    /** `list_functions()`: the names, in first-definition order. */
    function ListFunctions(): (r: seq<Json>)
      reads this
      ensures WellFormed(definitions) ==> forall k :: k in r <==> k in definitions.table
      ensures WellFormed(definitions) ==> forall i, j :: 0 <= i < j < |r| ==> r[i] != r[j]
    {
      definitions.keys
    }

    /** `execute_chain(steps)`: the steps in order, each one's result
        stored under its operation, the first failure escaping. */
    method ExecuteChain(steps: seq<Json>) returns (r: Result<Dict, Raised>)
      ensures r == Chain(env, definitions, steps)
    {
      var context := Dict([], map[]);
      var i := 0;
      while i < |steps|
        invariant 0 <= i <= |steps|
        invariant Chain(env, definitions, steps[..i]) == Ok(context)
      {
        var outcome := ChainStep(env, definitions, steps[i]);
        CollectSnoc(ChainEntry(env, definitions), steps, i, context);
        if outcome.Err? {
          CollectStopsAt(ChainEntry(env, definitions), steps, i + 1);
          return Err(outcome.error);
        }
        context := Insert(context, outcome.value.0, outcome.value.1);
        i := i + 1;
      }
      assert steps[..i] == steps;
      r := Ok(context);
    }
  }
}
