/** The catalogue tools mcp_app/tools/get_competencias.py, get_cortes.py and
    get_tribunales.py: each `execute(arguments)` lists the rows of one
    table (Competencia, Corte, Tribunal), reduced to the requested fields,
    as `{"status": "success", "data": rows, "count": len(rows)}`; any
    exception becomes `{"status": "error", "message": str(e)}`. Cortes and
    tribunales need their parent filter and are ordered and paginated.

    A row is the map of its model's fields. The database side is the `Db`:
    the three tables in their natural order, Django's conversion of a
    filter value to a key, `order_by`, and `int()` of a string. */
module Catalogue {
  import opened Common

  type Row = map<string, Json>

  /** The fields of each model (civil/models.py). */
  const CompetenciaFields: set<string> := {"id", "nombre"}
  const CorteFields: set<string> := {"id", "nombre", "competencia"}
  const TribunalFields: set<string> := {"id", "nombre", "corte"}

  const DefaultFields: seq<string> := ["id", "nombre"]
  const TribunalDefaultFields: seq<string> := ["id", "nombre", "jurisdiccion", "tipo_causa"]

  const IntArgMessage := "int() argument must be a string, a bytes-like object or a real number, not '"
  const NegativeMessage := "Negative indexing is not supported."

  const DefaultLimit: int := 100
  const DefaultOffset: int := 0

  datatype Db = Db(
    competencias: seq<Row>, cortes: seq<Row>, tribunales: seq<Row>,
    /** The key a filter value converts to, or the conversion's error. */
    toKey: Json -> Result<Json, string>,
    /** `queryset.order_by(field)` on the rows, or the error it raises. */
    orderBy: (Json, seq<Row>) -> Result<seq<Row>, string>,
    /** `int(s)` for a string, or the error it raises. */
    parseInt: string -> Result<int, string>,
    /** A dict's keys in iteration order. */
    keysOf: map<string, Json> -> seq<string>)

  function TypeName(v: Json): string
  {
    match v
    case JNull => "NoneType"
    case JBool(_) => "bool"
    case JInt(_) => "int"
    case JStr(_) => "str"
    case JArr(_) => "list"
    case JObj(_) => "dict"
  }

  /** `int(v)`. */
  function ToInt(db: Db, v: Json): (r: Result<int, string>)
    ensures v.JInt? ==> r == Ok(v.i)
    ensures v.JBool? ==> r == Ok(if v.b then 1 else 0)
    ensures v.JStr? ==> r == db.parseInt(v.s)
  {
    match v
    case JInt(i) => Ok(i)
    case JBool(b) => Ok(if b then 1 else 0)
    case JStr(s) => db.parseInt(s)
    case _ => Err(IntArgMessage + TypeName(v) + "'")
  }

  /** The items `for f in fields` visits: a list's items, a string's
      characters, a dict's keys; an int or a bool is not iterable. */
  function FieldItems(db: Db, fields: Json): (r: Result<seq<Json>, string>)
    ensures fields.JArr? ==> r == Ok(fields.items)
  {
    match fields
    case JArr(items) => Ok(items)
    case JStr(s) => Ok(seq(|s|, i requires 0 <= i < |s| => JStr([s[i]])))
    case JObj(m) => var ks := db.keysOf(m); Ok(seq(|ks|, i requires 0 <= i < |ks| => JStr(ks[i])))
    case _ => Err("'" + TypeName(fields) + "' object is not iterable")
  }

  /** The names in `fs` that are in `valid`, in order. */
  function Keep(fs: seq<string>, valid: set<string>): (r: seq<string>)
    ensures |r| <= |fs|
    ensures forall f :: f in r <==> f in fs && f in valid
  {
    if fs == [] then []
    else (if fs[0] in valid then [fs[0]] else []) + Keep(fs[1..], valid)
  }

  /** Filtering keeps the order: it distributes over concatenation. */
  lemma {:induction false} KeepAppend(fs: seq<string>, gs: seq<string>, valid: set<string>)
    ensures Keep(fs + gs, valid) == Keep(fs, valid) + Keep(gs, valid)
    decreases |fs|
  {
    if fs != [] {
      assert (fs + gs)[0] == fs[0] && (fs + gs)[1..] == fs[1..] + gs;
      KeepAppend(fs[1..], gs, valid);
      AppendAssoc(if fs[0] in valid then [fs[0]] else [], Keep(fs[1..], valid), Keep(gs, valid));
    } else {
      assert fs + gs == gs;
    }
  }

  /** `[f for f in items if f in valid]`: a string is kept when valid, a
      list or dict item is unhashable and raises, any other item is never
      a field name. */
  function SelectValid(items: seq<Json>, valid: set<string>): (r: Result<seq<string>, string>)
    ensures r.Ok? ==> forall f :: f in r.value ==> f in valid && JStr(f) in items
    decreases |items|
  {
    if items == [] then Ok([])
    else if items[0].JArr? || items[0].JObj? then Err("unhashable type: '" + TypeName(items[0]) + "'")
    else match SelectValid(items[1..], valid)
      case Err(e) => Err(e)
      case Ok(rest) => Ok((if items[0].JStr? && items[0].s in valid then [items[0].s] else []) + rest)
  }

  function Names(fs: seq<string>): (r: seq<Json>)
    ensures |r| == |fs| && forall i :: 0 <= i < |fs| ==> r[i] == JStr(fs[i])
  {
    seq(|fs|, i requires 0 <= i < |fs| => JStr(fs[i]))
  }

  /** On a list of names, the comprehension is `Keep`. */
  lemma {:induction false} SelectValidNames(fs: seq<string>, valid: set<string>)
    ensures SelectValid(Names(fs), valid) == Ok(Keep(fs, valid))
    decreases |fs|
  {
    if fs != [] {
      assert Names(fs)[1..] == Names(fs[1..]);
      SelectValidNames(fs[1..], valid);
    }
  }

  /** The fields to return: `arguments.get("fields") or default`, filtered
      against the model's fields, `or ["id", "nombre"]`. */
  function Selection(db: Db, arguments: map<string, Json>, default: seq<string>, valid: set<string>)
    : (r: Result<seq<string>, string>)
    ensures r.Ok? ==> r.value != []
  {
    var items := if "fields" in arguments && Truthy(arguments["fields"]) then FieldItems(db, arguments["fields"])
                 else Ok(Names(default));
    match items
    case Err(e) => Err(e)
    case Ok(fs) =>
      match SelectValid(fs, valid)
      case Err(e) => Err(e)
      case Ok(sel) => Ok(if sel == [] then DefaultFields else sel)
  }

  /** With a list of field names, or none, the selection is the valid names
      in order, or `id, nombre` when none is valid; it never raises. */
  lemma SelectionOfNames(db: Db, arguments: map<string, Json>, default: seq<string>, valid: set<string>, fs: seq<string>)
    requires ("fields" in arguments && arguments["fields"] == JArr(Names(fs)) && fs != [])
             || (("fields" !in arguments || !Truthy(arguments["fields"])) && fs == default)
    ensures Selection(db, arguments, default, valid) ==
      Ok(if Keep(fs, valid) == [] then DefaultFields else Keep(fs, valid))
  {
    SelectValidNames(fs, valid);
  }

  /** `.values(*fields)` of one row. */
  function Project(row: Row, fields: seq<string>): (r: Row)
    ensures forall f :: f in r <==> f in fields && f in row
    ensures forall f :: f in r ==> r[f] == row[f]
  {
    map f | f in fields && f in row :: row[f]
  }

  function Values(rows: seq<Row>, fields: seq<string>): (r: seq<Json>)
    ensures |r| == |rows|
    ensures forall i :: 0 <= i < |rows| ==> r[i] == JObj(Project(rows[i], fields))
  {
    seq(|rows|, i requires 0 <= i < |rows| => JObj(Project(rows[i], fields)))
  }

  /** The answer of a query that succeeded. */
  function SuccessOf(data: seq<Json>): (r: Json)
    ensures Answer(r) && r.fields["status"] == JStr("success")
  {
    JObj(map["status" := JStr("success"), "data" := JArr(data), "count" := JInt(|data|)])
  }

  /** The answer of a query that raised. */
  function FailureOf(message: string): (r: Json)
    ensures Answer(r) && r.fields["status"] == JStr("error")
  {
    JObj(map["status" := JStr("error"), "message" := JStr(message)])
  }

  /** `get_competencias.execute(arguments)`. */
  function GetCompetencias(db: Db, arguments: map<string, Json>): Json
  {
    match Selection(db, arguments, DefaultFields, CompetenciaFields)
    case Err(e) => FailureOf(e)
    case Ok(sel) => SuccessOf(Values(db.competencias, sel))
  }

  /** `query.order_by(order_by)[offset:offset + limit]`, with `order_by`,
      `limit` and `offset` read from the arguments (defaults "nombre", 100
      and 0). A negative bound is refused. */
  function Page(db: Db, rows: seq<Row>, arguments: map<string, Json>): Result<seq<Row>, string>
  {
    var orderField := if "order_by" in arguments then arguments["order_by"] else JStr("nombre");
    match ToInt(db, if "limit" in arguments then arguments["limit"] else JInt(DefaultLimit))
    case Err(e) => Err(e)
    case Ok(limit) =>
      match ToInt(db, if "offset" in arguments then arguments["offset"] else JInt(DefaultOffset))
      case Err(e) => Err(e)
      case Ok(offset) =>
        match db.orderBy(orderField, rows)
        case Err(e) => Err(e)
        case Ok(ordered) =>
          if offset < 0 || offset + limit < 0 then Err(NegativeMessage)
          else Ok(PySlice(ordered, offset, offset + limit))
  }

  /** The rows whose `parent` field holds `key`. */
  function Children(rows: seq<Row>, parent: string, key: Json): (r: seq<Row>)
    ensures |r| <= |rows|
    ensures forall row :: row in r <==> row in rows && parent in row && row[parent] == key
  {
    if rows == [] then []
    else (if parent in rows[0] && rows[0][parent] == key then [rows[0]] else []) + Children(rows[1..], parent, key)
  }

  /** The error for a missing parent filter. */
  function Required(parent: string): string
  {
    "El parámetro '" + parent + "' es obligatorio."
  }

  /** A paginated listing of the children of `arguments[parent]`: the
      parent filter is required; then the page; then the fields. */
  function ListChildren(db: Db, rows: seq<Row>, parent: string, arguments: map<string, Json>,
                        default: seq<string>, valid: set<string>): Json
  {
    if parent !in arguments then FailureOf(Required(parent))
    else match db.toKey(arguments[parent])
      case Err(e) => FailureOf(e)
      case Ok(key) =>
        match Page(db, Children(rows, parent, key), arguments)
        case Err(e) => FailureOf(e)
        case Ok(page) =>
          match Selection(db, arguments, default, valid)
          case Err(e) => FailureOf(e)
          case Ok(sel) => SuccessOf(Values(page, sel))
  }

  /** `get_cortes.execute(arguments)`. */
  function GetCortes(db: Db, arguments: map<string, Json>): Json
  {
    ListChildren(db, db.cortes, "competencia", arguments, DefaultFields, CorteFields)
  }

  /** `get_tribunales.execute(arguments)`. */
  function GetTribunales(db: Db, arguments: map<string, Json>): Json
  {
    ListChildren(db, db.tribunales, "corte", arguments, TribunalDefaultFields, TribunalFields)
  }

  /** The shape every answer has: success with "data" and "count" equal to
      its length, or error with a message. */
  predicate Answer(out: Json)
  {
    && out.JObj? && "status" in out.fields
    && (|| (&& out.fields["status"] == JStr("success") && out.fields.Keys == {"status", "data", "count"}
            && out.fields["data"].JArr? && out.fields["count"] == JInt(|out.fields["data"].items|))
        || (out.fields["status"] == JStr("error") && out.fields.Keys == {"status", "message"}))
  }

  /** Without "fields", competencias come back as `id` and `nombre` of every
      row, in table order, with their count. */
  lemma CompetenciasDefault(db: Db, arguments: map<string, Json>)
    requires "fields" !in arguments
    ensures GetCompetencias(db, arguments) == SuccessOf(Values(db.competencias, DefaultFields))
  {
    SelectionOfNames(db, arguments, DefaultFields, CompetenciaFields, DefaultFields);
    assert Keep(DefaultFields, CompetenciaFields) == DefaultFields;
  }

  /** With a list of field names, competencias come back with the valid
      ones, in the order given, or `id` and `nombre` when none is valid. */
  lemma CompetenciasFields(db: Db, arguments: map<string, Json>, fs: seq<string>)
    requires "fields" in arguments && arguments["fields"] == JArr(Names(fs)) && fs != []
    ensures var sel := if Keep(fs, CompetenciaFields) == [] then DefaultFields else Keep(fs, CompetenciaFields);
      GetCompetencias(db, arguments) == SuccessOf(Values(db.competencias, sel))
  {
    SelectionOfNames(db, arguments, DefaultFields, CompetenciaFields, fs);
  }

  /** Without the parent filter, cortes and tribunales answer an error
      naming it. */
  lemma ParentRequired(db: Db, arguments: map<string, Json>)
    ensures "competencia" !in arguments ==> GetCortes(db, arguments) == FailureOf(Required("competencia"))
    ensures "corte" !in arguments ==> GetTribunales(db, arguments) == FailureOf(Required("corte"))
  {
  }

  /** A page holds at most `limit` rows, taken in order from position
      `offset` of the ordered children. */
  lemma {:induction false} PageBounds(db: Db, rows: seq<Row>, arguments: map<string, Json>, limit: int, offset: int,
                                      ordered: seq<Row>)
    requires ToInt(db, if "limit" in arguments then arguments["limit"] else JInt(DefaultLimit)) == Ok(limit)
    requires ToInt(db, if "offset" in arguments then arguments["offset"] else JInt(DefaultOffset)) == Ok(offset)
    requires db.orderBy(if "order_by" in arguments then arguments["order_by"] else JStr("nombre"), rows) == Ok(ordered)
    requires 0 <= offset && 0 <= limit
    ensures var p := Page(db, rows, arguments);
      && p.Ok? && |p.value| <= limit
      && (offset + limit <= |ordered| ==> p.value == ordered[offset..offset + limit])
      && (offset <= |ordered| < offset + limit ==> p.value == ordered[offset..])
      && (|ordered| < offset ==> p.value == [])
  {
    PySliceItems(ordered, offset, offset + limit);
  }

  /** A negative offset, or a negative end, is refused. */
  lemma NegativeRefused(db: Db, rows: seq<Row>, arguments: map<string, Json>, limit: int, offset: int)
    requires ToInt(db, if "limit" in arguments then arguments["limit"] else JInt(DefaultLimit)) == Ok(limit)
    requires ToInt(db, if "offset" in arguments then arguments["offset"] else JInt(DefaultOffset)) == Ok(offset)
    requires db.orderBy(if "order_by" in arguments then arguments["order_by"] else JStr("nombre"), rows).Ok?
    requires offset < 0 || offset + limit < 0
    ensures Page(db, rows, arguments) == Err(NegativeMessage)
  {
  }

  /** The default page is the first 100 rows in "nombre" order. */
  lemma DefaultPage(db: Db, rows: seq<Row>, arguments: map<string, Json>)
    requires "limit" !in arguments && "offset" !in arguments && "order_by" !in arguments
    requires db.orderBy(JStr("nombre"), rows).Ok?
    ensures Page(db, rows, arguments) == Ok(PySlice(db.orderBy(JStr("nombre"), rows).value, 0, 100))
  {
  }

  /** Tribunal's default fields name two columns it does not have, so the
      default selection is `id` and `nombre`. */
  lemma TribunalDefaultSelection(db: Db, arguments: map<string, Json>)
    requires "fields" !in arguments
    ensures Selection(db, arguments, TribunalDefaultFields, TribunalFields) == Ok(["id", "nombre"])
  {
    SelectionOfNames(db, arguments, TribunalDefaultFields, TribunalFields, TribunalDefaultFields);
    assert Keep(TribunalDefaultFields, TribunalFields) == ["id", "nombre"];
  }

  /** Every answer of the three tools is a success whose "count" is the
      number of rows in "data", or an error with a message. */
  lemma AnswersWellFormed(db: Db, arguments: map<string, Json>)
    ensures Answer(GetCompetencias(db, arguments))
    ensures Answer(GetCortes(db, arguments))
    ensures Answer(GetTribunales(db, arguments))
  {
    ListingAnswer(db, db.cortes, "competencia", arguments, DefaultFields, CorteFields);
    ListingAnswer(db, db.tribunales, "corte", arguments, TribunalDefaultFields, TribunalFields);
  }

  lemma ListingAnswer(db: Db, rows: seq<Row>, parent: string, arguments: map<string, Json>,
                      default: seq<string>, valid: set<string>)
    ensures Answer(ListChildren(db, rows, parent, arguments, default, valid))
  {
  }
}
