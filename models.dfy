/**
 * The records and enumerations the library declares, and the JSON shape in
 * which a collection schema is sent.
 */
module Models {
  import opened JsValues

  datatype Option<T> = None | Some(value: T)

  /** Column data types; each is sent as its own name. */
  datatype AppDbDataType = STRING | LONG | DOUBLE | DECIMAL | DATE | DATETIME

  datatype Column = Column(name: string, dataType: AppDbDataType, visible: Option<bool>)

  datatype CollectionSchema = CollectionSchema(columns: seq<Column>)

  datatype AppDbCollectionSchema = AppDbCollectionSchema(name: string, schema: CollectionSchema, syncEnabled: bool)

  datatype ManualExportStatus = ALREADY_IN_PROGRESS | STARTED

  /** The counts a bulk operation reports, each optional. */
  datatype AppDbBulkRes = AppDbBulkRes(created: Option<int>, updated: Option<int>, deleted: Option<int>)

  /** An instance's optional `GetAppDbFormat` method, as a function of the instance's properties. */
  datatype Format = NoFormat | Format(apply: map<string, Value> -> Value)

  /**
   * An object stored through the typed wrappers (`IDomoDb`): its properties,
   * among them `id` and `collectionName`, which the library updates in place,
   * and its format method.
   */
  class Entity {
    var fields: map<string, Value>
    const format: Format

    constructor(fields: map<string, Value>, format: Format)
      ensures this.fields == fields && this.format == format
    {
      this.fields := fields;
      this.format := format;
    }
  }

  // ---------------------------------------------------------------------------
  // The JSON shape of a schema

  function DataTypeName(t: AppDbDataType): string
  {
    match t
    case STRING => "STRING"
    case LONG => "LONG"
    case DOUBLE => "DOUBLE"
    case DECIMAL => "DECIMAL"
    case DATE => "DATE"
    case DATETIME => "DATETIME"
  }

  function ParseDataType(s: string): (r: Option<AppDbDataType>)
    ensures r.Some? ==> DataTypeName(r.value) == s
  {
    if s == "STRING" then Some(STRING)
    else if s == "LONG" then Some(LONG)
    else if s == "DOUBLE" then Some(DOUBLE)
    else if s == "DECIMAL" then Some(DECIMAL)
    else if s == "DATE" then Some(DATE)
    else if s == "DATETIME" then Some(DATETIME)
    else None
  }

  lemma DataTypeNameRoundTrip(t: AppDbDataType)
    ensures ParseDataType(DataTypeName(t)) == Some(t)
  {
  }

  /** A column as an object: `visible` appears only when it is set. */
  function ColumnToJson(c: Column): Value
  {
    var m := map["name" := Str(c.name), "type" := Str(DataTypeName(c.dataType))];
    Obj(if c.visible.Some? then m["visible" := Bool(c.visible.value)] else m)
  }

  function ColumnFromJson(v: Value): Option<Column>
  {
    if !v.Obj? then None
    else
      match (Field(v.fields, "name"), Field(v.fields, "type"), Field(v.fields, "visible"))
      case (Str(name), Str(t), Undefined) =>
        if ParseDataType(t).Some? then Some(Column(name, ParseDataType(t).value, None)) else None
      case (Str(name), Str(t), Bool(b)) =>
        if ParseDataType(t).Some? then Some(Column(name, ParseDataType(t).value, Some(b))) else None
      case _ => None
  }

  function ColumnsToJson(cs: seq<Column>): seq<Value>
  {
    seq(|cs|, i requires 0 <= i < |cs| => ColumnToJson(cs[i]))
  }

  function ColumnsFromJson(vs: seq<Value>): Option<seq<Column>>
  {
    if |vs| == 0 then Some([])
    else
      match (ColumnFromJson(vs[0]), ColumnsFromJson(vs[1..]))
      case (Some(c), Some(cs)) => Some([c] + cs)
      case _ => None
  }

  /** The body `JSON.stringify(collection)` encodes. */
  function SchemaToJson(s: AppDbCollectionSchema): Value
  {
    Obj(map[
      "name" := Str(s.name),
      "schema" := Obj(map["columns" := Arr(ColumnsToJson(s.schema.columns))]),
      "syncEnabled" := Bool(s.syncEnabled)])
  }

  function SchemaFromJson(v: Value): Option<AppDbCollectionSchema>
  {
    if !v.Obj? then None
    else
      var name := Field(v.fields, "name");
      var schema := Field(v.fields, "schema");
      var sync := Field(v.fields, "syncEnabled");
      if !(name.Str? && schema.Obj? && sync.Bool?) then None
      else
        var cols := Field(schema.fields, "columns");
        if !cols.Arr? then None
        else
          match ColumnsFromJson(cols.items)
          case Some(cs) => Some(AppDbCollectionSchema(name.s, CollectionSchema(cs), sync.b))
          case None => None
  }

  lemma ColumnRoundTrip(c: Column)
    ensures ColumnFromJson(ColumnToJson(c)) == Some(c)
  {
    DataTypeNameRoundTrip(c.dataType);
  }

  lemma {:induction false} ColumnsRoundTrip(cs: seq<Column>)
    ensures ColumnsFromJson(ColumnsToJson(cs)) == Some(cs)
    decreases |cs|
  {
    var vs := ColumnsToJson(cs);
    if |cs| > 0 {
      ColumnRoundTrip(cs[0]);
      ColumnsRoundTrip(cs[1..]);
      assert vs[1..] == ColumnsToJson(cs[1..]);
      assert [cs[0]] + cs[1..] == cs;
    }
  }

  /** The schema body carries the whole schema: it decodes back to it. */
  lemma SchemaRoundTrip(s: AppDbCollectionSchema)
    ensures SchemaFromJson(SchemaToJson(s)) == Some(s)
  {
    var cs := s.schema.columns;
    var cols := ColumnsToJson(cs);
    ColumnsRoundTrip(cs);
    var v := SchemaToJson(s);
    assert Field(v.fields, "name") == Str(s.name);
    assert Field(v.fields, "syncEnabled") == Bool(s.syncEnabled);
    assert Field(v.fields, "schema") == Obj(map["columns" := Arr(cols)]);
    assert Field(Field(v.fields, "schema").fields, "columns") == Arr(cols);
  }
}
