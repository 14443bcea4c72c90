/** The rows of the editable tables are plain objects whose fields are
  * numbers or strings. Their change handlers decide at run time how to
  * store an edit: `typeof item[field] === 'number'` selects a numeric
  * parse, anything else stores the raw text. A row is modelled as that
  * object (field name to value), and its declared interface as a schema. */
module Records {
  import opened Base
  import Rows

  datatype Value = Num(n: real) | Text(s: string) | Flag(b: bool)

  type Record = map<string, Value>

  datatype Kind = NumberField | TextField | FlagField

  /** The declared interface of a row type: field name to kind. */
  type Schema = map<string, Kind>

  predicate HasKind(v: Value, k: Kind)
  {
    match k
    case NumberField => v.Num?
    case TextField => v.Text?
    case FlagField => v.Flag?
  }

  /** The row carries every declared field, with a value of its declared kind. */
  predicate Conforms(r: Record, schema: Schema)
  {
    forall f :: f in schema ==> f in r && HasKind(r[f], schema[f])
  }

  predicate AllConform(rows: seq<Record>, schema: Schema)
  {
    forall j :: 0 <= j < |rows| ==> Conforms(rows[j], schema)
  }

  /** `{ ...item, [field]: typeof item[field] === 'number' ? parseFloat(v) || 0 : v }` */
  function SetField(r: Record, field: string, input: Input): (r': Record)
    ensures r'.Keys == r.Keys + {field}
    ensures forall f :: f in r && f != field ==> r'[f] == r[f]
  {
    r[field := if field in r && r[field].Num? then Num(NumberOrZero(input)) else Text(input.text)]
  }

  /** An edit keeps a conforming row conforming: a number field stays a
    * number, a text field receives the text. (Rows of the tables have no
    * boolean field.) */
  lemma SetFieldConforms(r: Record, field: string, input: Input, schema: Schema)
    requires Conforms(r, schema)
    requires field in schema ==> schema[field] != FlagField
    ensures Conforms(SetField(r, field, input), schema)
    ensures field in schema && schema[field] == NumberField
            ==> SetField(r, field, input)[field] == Num(NumberOrZero(input))
    ensures field in schema && schema[field] == TextField
            ==> SetField(r, field, input)[field] == Text(input.text)
  {
  }

  /** The numeric value of a field, as `Number(item[field])` reads it on a
    * conforming row (0 when the field is not a number). */
  function NumOf(r: Record, field: string): real
  {
    if field in r && r[field].Num? then r[field].n else 0.0
  }

  /** Column total of a numeric field, `rows.reduce((s, item) => s + item[field], 0)`. */
  function SumField(rows: seq<Record>, field: string): real
  {
    Rows.SumOf(rows, (r: Record) => NumOf(r, field))
  }

  /** `[...rows, { ...template, id }]` */
  function AddRow(rows: seq<Record>, template: Record, id: string): (r: seq<Record>)
    ensures |r| == |rows| + 1 && r[..|rows|] == rows
    ensures "id" in r[|rows|] && r[|rows|]["id"] == Text(id)
    ensures forall f :: f in template && f != "id" ==> f in r[|rows|] && r[|rows|][f] == template[f]
  {
    Rows.Append(rows, template["id" := Text(id)])
  }

  /** Editing one cell of a table: index-local, the other rows are kept. */
  function EditRow(rows: seq<Record>, index: nat, field: string, input: Input): (r: seq<Record>)
    requires index < |rows|
    ensures |r| == |rows|
    ensures forall j :: 0 <= j < |rows| && j != index ==> r[j] == rows[j]
    ensures r[index] == SetField(rows[index], field, input)
  {
    Rows.UpdateAt(rows, index, SetField(rows[index], field, input))
  }

  /** A template row declares every field of the schema but `id`, with
    * its declared kind. */
  predicate FitsTemplate(template: Record, schema: Schema)
  {
    forall f :: f in schema && f != "id" ==> f in template && HasKind(template[f], schema[f])
  }

  /** The empty value of a kind: zero, the empty text, unchecked. */
  function Blank(k: Kind): (v: Value)
    ensures HasKind(v, k)
  {
    match k
    case NumberField => Num(0.0)
    case TextField => Text("")
    case FlagField => Flag(false)
  }

  /** The row the add buttons build: every declared field but `id`, empty. */
  function BlankRow(schema: Schema): (r: Record)
    ensures "id" !in r && FitsTemplate(r, schema)
    ensures forall f :: f in r ==> f in schema && r[f] == Blank(schema[f])
    ensures forall f :: f in r && r[f].Num? ==> r[f].n == 0.0
  {
    map f | f in schema && f != "id" :: Blank(schema[f])
  }

  /** Filling one declared column of a template keeps it a template. */
  lemma FillKeepsFit(r: Record, schema: Schema, f: string, v: Value)
    requires "id" !in r && FitsTemplate(r, schema)
    requires f != "id" && f in schema && HasKind(v, schema[f])
    ensures "id" !in r[f := v] && FitsTemplate(r[f := v], schema)
  {
  }

  /** A template given its `id` is a conforming row. */
  lemma WithIdConforms(template: Record, schema: Schema, id: string)
    requires FitsTemplate(template, schema)
    requires "id" in schema ==> schema["id"] == TextField
    ensures Conforms(template["id" := Text(id)], schema)
  {
  }

  /** Every table operation keeps the table conforming to its schema. */
  lemma TableOperationsConform(rows: seq<Record>, schema: Schema, template: Record, id: string,
                               index: nat, field: string, input: Input, removed: int)
    requires AllConform(rows, schema)
    requires FitsTemplate(template, schema)
    requires "id" in schema ==> schema["id"] == TextField
    requires index < |rows| && (field in schema ==> schema[field] != FlagField)
    ensures AllConform(AddRow(rows, template, id), schema)
    ensures AllConform(EditRow(rows, index, field, input), schema)
    ensures AllConform(Rows.RemoveAt(rows, removed), schema)
  {
    AddRowConforms(rows, schema, template, id);
    EditRowConforms(rows, schema, index, field, input);
  }

  lemma AddRowConforms(rows: seq<Record>, schema: Schema, template: Record, id: string)
    requires AllConform(rows, schema) && FitsTemplate(template, schema)
    requires "id" in schema ==> schema["id"] == TextField
    ensures AllConform(AddRow(rows, template, id), schema)
  {
    var a := AddRow(rows, template, id);
    assert forall j :: 0 <= j < |rows| ==> a[j] == rows[j];
  }

  lemma EditRowConforms(rows: seq<Record>, schema: Schema, index: nat, field: string, input: Input)
    requires AllConform(rows, schema)
    requires index < |rows| && (field in schema ==> schema[field] != FlagField)
    ensures AllConform(EditRow(rows, index, field, input), schema)
  {
    var e := EditRow(rows, index, field, input);
    SetFieldConforms(rows[index], field, input, schema);
    assert forall j :: 0 <= j < |e| ==> Conforms(e[j], schema);
  }

  /** Column totals follow the table operations: a new row adds its own
    * value, a removed row takes its own value out, an edit of another field
    * leaves the column unchanged. */
  lemma SumFieldAfterOperations(rows: seq<Record>, template: Record, id: string,
                                index: nat, column: string, field: string, input: Input, removed: int)
    requires index < |rows| && field != column && column != "id"
    ensures SumField(AddRow(rows, template, id), column) == SumField(rows, column) + NumOf(template, column)
    ensures SumField(EditRow(rows, index, field, input), column) == SumField(rows, column)
    ensures SumField(Rows.RemoveAt(rows, removed), column)
         == if 0 <= removed < |rows| then SumField(rows, column) - NumOf(rows[removed], column)
            else SumField(rows, column)
  {
    var f := (r: Record) => NumOf(r, column);
    var added := AddRow(rows, template, id);
    assert added[..|added| - 1] == rows;
    Rows.SumOfUpdateAt(rows, index, SetField(rows[index], field, input), f);
    Rows.SumOfRemoveAt(rows, removed, f);
  }
}
