/** The response classifier: one upstream system message of the data-analytics
    chat stream becomes a small dictionary with at most one key. */
module DataAgentHelper {
  import opened Values

  // ---------------------------------------------------------------------
  // Message shapes. A proto field whose presence the code tests with `in`
  // is an Option; a field the code reads unconditionally is plain.
  // ---------------------------------------------------------------------

  datatype BigQueryTableReference = BigQueryTableReference(projectId: string, datasetId: string, tableId: string)
  datatype LookerExploreReference = LookerExploreReference(lookmlModel: string, explore: string)

  /** A datasource reference. The BigQuery reference is read whenever the other
      two are unset (an unset one reads as empty ids). */
  datatype Datasource = Datasource(
    studioDatasourceId: Option<string>,
    lookerExploreReference: Option<LookerExploreReference>,
    bigqueryTableReference: BigQueryTableReference)

  datatype TextMessage = TextMessage(parts: seq<string>)

  datatype SchemaQuery = SchemaQuery(question: string)
  datatype SchemaResult = SchemaResult(datasources: seq<Datasource>)
  datatype SchemaMessage = SchemaMessage(query: Option<SchemaQuery>, result: Option<SchemaResult>)

  datatype DataQuery = DataQuery(name: string, question: string, datasources: seq<Datasource>)
  datatype SchemaField = SchemaField(name: string)
  datatype Schema = Schema(fields: seq<SchemaField>)
  /** One data row: a struct from field name to cell value. */
  type Row = map<string, Value>
  datatype DataResult = DataResult(schema: Schema, data: seq<Row>)
  datatype DataMessage = DataMessage(query: Option<DataQuery>, generatedSql: Option<string>, result: Option<DataResult>)

  /** A value inside a chart's vega configuration, as the proto library hands
      it out: a map, a repeated field, a scalar, a JSON null (which arrives
      as Python `None`), or another message, which is represented by the
      dictionary `MessageToDict` turns it into. */
  datatype ProtoValue =
    | PMap(entries: map<string, ProtoValue>)
    | PList(elements: seq<ProtoValue>)
    | PInt(i: int)
    | PFloat(x: real)
    | PStr(s: string)
    | PBool(b: bool)
    | PNone
    | PMessage(asDict: Value)

  datatype ChartQuery = ChartQuery(instructions: string)
  /** `vega_config` is an optional Struct field; `None` is a result that leaves it unset. */
  datatype ChartResult = ChartResult(vegaConfig: Option<map<string, ProtoValue>>)
  datatype ChartMessage = ChartMessage(query: Option<ChartQuery>, result: Option<ChartResult>)

  /** The system message: a sum of optional sub-fields. */
  datatype SystemMessage = SystemMessage(
    text: Option<TextMessage>,
    schema: Option<SchemaMessage>,
    data: Option<DataMessage>,
    chart: Option<ChartMessage>)

  /** One element of the chat stream. */
  datatype ChatMessage = ChatMessage(systemMessage: SystemMessage)

  // Keys of the classified dictionaries.
  const TextKey: Key := Name("text")
  const QueryKey: Key := Name("query")
  const SchemaResolvedKey: Key := Name("schema_resolved")
  const RetrievalQueryKey: Key := Name("retrieval_query")
  const SqlGeneratedKey: Key := Name("sql_generated")
  const DataRetrievedKey: Key := Name("data_retrieved")
  const ChartQueryKey: Key := Name("chart_query")
  const ChartResultKey: Key := Name("chart_result")

  /** Every key a classified message can carry. */
  const FragmentKeys: set<Key> :=
    {TextKey, QueryKey, SchemaResolvedKey, RetrievalQueryKey, SqlGeneratedKey,
     DataRetrievedKey, ChartQueryKey, ChartResultKey}

  // ---------------------------------------------------------------------
  // Text
  // ---------------------------------------------------------------------

  /** `"".join(parts)` */
  function Join(parts: seq<string>): string {
    if parts == [] then "" else Join(parts[..|parts| - 1]) + parts[|parts| - 1]
  }

  lemma {:induction false} JoinAppend(a: seq<string>, b: seq<string>)
    ensures Join(a + b) == Join(a) + Join(b)
    decreases |b|
  {
    if b == [] {
      assert a + b == a;
    } else {
      var b' := b[..|b| - 1];
      var last := b[|b| - 1];
      assert (a + b)[..|a + b| - 1] == a + b';
      assert (a + b)[|a + b| - 1] == last;
      JoinAppend(a, b');
      calc {
        Join(a + b);
        Join(a + b') + last;
        (Join(a) + Join(b')) + last;
        Join(a) + (Join(b') + last);
      }
    }
  }

  /** Part i of the joined text sits right after the parts before it. */
  lemma JoinPart(parts: seq<string>, i: nat)
    requires i < |parts|
    ensures |Join(parts[..i])| + |parts[i]| <= |Join(parts)|
    ensures Join(parts)[|Join(parts[..i])|..|Join(parts[..i])| + |parts[i]|] == parts[i]
  {
    assert parts == parts[..i] + [parts[i]] + parts[i + 1..];
    JoinAppend(parts[..i] + [parts[i]], parts[i + 1..]);
    JoinAppend(parts[..i], [parts[i]]);
    assert Join([parts[i]]) == parts[i] by {
      assert [parts[i]][..0] == [];
    }
  }

  function HandleTextResponse(resp: TextMessage): (r: map<Key, Value>)
    ensures r.Keys == {TextKey} && r[TextKey].Str?
    ensures |r[TextKey].s| == |Join(resp.parts)|
  {
    map[TextKey := Str(Join(resp.parts))]
  }

  // ---------------------------------------------------------------------
  // Datasource naming, shared by the schema and the data handler
  // ---------------------------------------------------------------------

  /** The studio id, else the Looker explore, else `project.dataset.table`. */
  function SourceName(d: Datasource): string {
    if d.studioDatasourceId.Some? then d.studioDatasourceId.value
    else if d.lookerExploreReference.Some? then
      "lookmlModel: " + d.lookerExploreReference.value.lookmlModel
      + ", explore: " + d.lookerExploreReference.value.explore
    else
      var t := d.bigqueryTableReference;
      t.projectId + "." + t.datasetId + "." + t.tableId
  }

  function SourceNames(ds: seq<Datasource>): seq<Value> {
    seq(|ds|, i requires 0 <= i < |ds| => Str(SourceName(ds[i])))
  }

  /** The loop that fills `datasources`: one name per datasource, in order. */
  method ResolveDatasourceNames(ds: seq<Datasource>) returns (names: seq<Value>)
    ensures |names| == |ds|
    ensures forall i :: 0 <= i < |ds| ==> names[i] == Str(SourceName(ds[i]))
  {
    names := [];
    for i := 0 to |ds|
      invariant |names| == i
      invariant forall j :: 0 <= j < i ==> names[j] == Str(SourceName(ds[j]))
    {
      var sourceName: string;
      var d := ds[i];
      if d.studioDatasourceId.Some? {
        sourceName := d.studioDatasourceId.value;
      } else if d.lookerExploreReference.Some? {
        sourceName := "lookmlModel: " + d.lookerExploreReference.value.lookmlModel
                      + ", explore: " + d.lookerExploreReference.value.explore;
      } else {
        sourceName := d.bigqueryTableReference.projectId + "." + d.bigqueryTableReference.datasetId
                      + "." + d.bigqueryTableReference.tableId;
      }
      names := names + [Str(sourceName)];
    }
  }

  // ---------------------------------------------------------------------
  // Schema
  // ---------------------------------------------------------------------

  function SchemaFragment(resp: SchemaMessage): map<Key, Value> {
    if resp.query.Some? then map[QueryKey := Str(resp.query.value.question)]
    else if resp.result.Some? then
      map[SchemaResolvedKey := Dict(map[Name("datasources") := List(SourceNames(resp.result.value.datasources))])]
    else map[]
  }

  method HandleSchemaResponse(resp: SchemaMessage) returns (r: map<Key, Value>)
    ensures r == SchemaFragment(resp)
  {
    if resp.query.Some? {
      r := map[QueryKey := Str(resp.query.value.question)];
    } else if resp.result.Some? {
      var datasources := ResolveDatasourceNames(resp.result.value.datasources);
      assert datasources == SourceNames(resp.result.value.datasources);
      r := map[SchemaResolvedKey := Dict(map[Name("datasources") := List(datasources)])];
    } else {
      r := map[];
    }
  }

  /** A resolved schema lists one name per datasource, in input order. */
  lemma SchemaDatasources(resp: SchemaMessage)
    requires resp.query.None? && resp.result.Some?
    ensures var ds := resp.result.value.datasources;
            var r := SchemaFragment(resp);
            && r.Keys == {SchemaResolvedKey}
            && r[SchemaResolvedKey].Dict?
            && Name("datasources") in r[SchemaResolvedKey].fields
            && var names := r[SchemaResolvedKey].fields[Name("datasources")];
               names.List? && |names.items| == |ds|
               && forall i :: 0 <= i < |ds| ==> names.items[i] == Str(SourceName(ds[i]))
  {
  }

  // ---------------------------------------------------------------------
  // Data: pivoting rows into columns, then `pd.DataFrame(d).to_dict()`
  // ---------------------------------------------------------------------

  function FieldNames(fields: seq<SchemaField>): (names: seq<string>)
    ensures |names| == |fields| && forall i :: 0 <= i < |fields| ==> names[i] == fields[i].name
  {
    seq(|fields|, i requires 0 <= i < |fields| => fields[i].name)
  }

  /** The first of `fields`, in order, that `row` lacks. */
  function MissingIn(fields: seq<string>, row: Row): Option<string> {
    if fields == [] then None
    else if MissingIn(fields[..|fields| - 1], row).Some? then MissingIn(fields[..|fields| - 1], row)
    else if fields[|fields| - 1] !in row then Some(fields[|fields| - 1])
    else None
  }

  /** The key of the first lookup `el[field]` that fails, rows outer, fields inner. */
  function FirstMissing(fields: seq<string>, rows: seq<Row>): Option<string> {
    if rows == [] then None
    else if FirstMissing(fields, rows[..|rows| - 1]).Some? then FirstMissing(fields, rows[..|rows| - 1])
    else MissingIn(fields, rows[|rows| - 1])
  }

  ghost predicate AllPresent(fields: seq<string>, rows: seq<Row>) {
    forall i, j :: 0 <= i < |rows| && 0 <= j < |fields| ==> fields[j] in rows[i]
  }

  lemma {:induction false} MissingInNone(fields: seq<string>, row: Row)
    ensures MissingIn(fields, row).None? <==> forall j :: 0 <= j < |fields| ==> fields[j] in row
    decreases |fields|
  {
    if fields != [] {
      var init := fields[..|fields| - 1];
      MissingInNone(init, row);
      assert forall j :: 0 <= j < |init| ==> init[j] == fields[j];
    }
  }

  lemma {:induction false} FirstMissingNone(fields: seq<string>, rows: seq<Row>)
    ensures FirstMissing(fields, rows).None? <==> AllPresent(fields, rows)
    decreases |rows|
  {
    if rows != [] {
      var init := rows[..|rows| - 1];
      FirstMissingNone(fields, init);
      MissingInNone(fields, rows[|rows| - 1]);
      assert forall i :: 0 <= i < |init| ==> init[i] == rows[i];
    }
  }

  /** Once a prefix of the fields has a missing one, so do the whole fields. */
  lemma {:induction false} MissingInStays(fields: seq<string>, row: Row, k: nat)
    requires k <= |fields| && MissingIn(fields[..k], row).Some?
    ensures MissingIn(fields, row) == MissingIn(fields[..k], row)
    decreases |fields| - k
  {
    if k < |fields| {
      assert fields[..k + 1][..k] == fields[..k];
      MissingInStays(fields, row, k + 1);
    } else {
      assert fields[..k] == fields;
    }
  }

  lemma {:induction false} FirstMissingStays(fields: seq<string>, rows: seq<Row>, k: nat)
    requires k <= |rows| && FirstMissing(fields, rows[..k]).Some?
    ensures FirstMissing(fields, rows) == FirstMissing(fields, rows[..k])
    decreases |rows| - k
  {
    if k < |rows| {
      assert rows[..k + 1][..k] == rows[..k];
      FirstMissingStays(fields, rows, k + 1);
    } else {
      assert rows[..k] == rows;
    }
  }

  function Repeat(x: Value, n: nat): (r: seq<Value>)
    ensures |r| == n && forall k :: 0 <= k < n ==> r[k] == x
  {
    if n == 0 then [] else Repeat(x, n - 1) + [x]
  }

  /** Column `f` when `f` occurs `m` times among the schema fields: each row
      contributes its cell `m` times. */
  function ColumnOf(f: string, m: nat, rows: seq<Row>): seq<Value>
    requires forall i :: 0 <= i < |rows| ==> f in rows[i]
  {
    if rows == [] then []
    else ColumnOf(f, m, rows[..|rows| - 1]) + Repeat(rows[|rows| - 1][f], m)
  }

  /** The dictionary `d` of column lists once every row is in; it is empty when there are no rows. */
  function Columns(fields: seq<string>, rows: seq<Row>): map<string, seq<Value>>
    requires AllPresent(fields, rows)
  {
    map f | f in fields && rows != [] :: ColumnOf(f, multiset(fields)[f], rows)
  }

  /** The inner loop over the fields for one row `el`, starting from `d`:
      each field's cell is appended to its column, or starts a new one. */
  function AddRow(d: map<string, seq<Value>>, fields: seq<string>, el: Row): map<string, seq<Value>>
    requires forall j :: 0 <= j < |fields| ==> fields[j] in el
  {
    if fields == [] then d
    else
      var prev := AddRow(d, fields[..|fields| - 1], el);
      var f := fields[|fields| - 1];
      prev[f := Cell(prev, f) + [el[f]]]
  }

  /** The list `d[f]` so far, empty while `f` has no column yet. */
  function Cell(d: map<string, seq<Value>>, f: string): seq<Value> {
    if f in d then d[f] else []
  }

  /** The dictionary `d` after the outer loop has seen every row. */
  function Pivoted(fields: seq<string>, rows: seq<Row>): map<string, seq<Value>>
    requires AllPresent(fields, rows)
  {
    if rows == [] then map[]
    else AddRow(Pivoted(fields, rows[..|rows| - 1]), fields, rows[|rows| - 1])
  }

  /** The nested loop of the data handler: the columns, or the KeyError of the first missing cell. */
  function Pivot(fields: seq<string>, rows: seq<Row>): Result<map<string, seq<Value>>> {
    match FirstMissing(fields, rows)
    case Some(f) => Raised(KeyError(f))
    case None => FirstMissingNone(fields, rows); Ok(Pivoted(fields, rows))
  }

  lemma {:induction false} AddRowKeys(d: map<string, seq<Value>>, fields: seq<string>, el: Row)
    requires forall j :: 0 <= j < |fields| ==> fields[j] in el
    ensures AddRow(d, fields, el).Keys == d.Keys + (set f | f in fields)
    decreases |fields|
  {
    if fields != [] {
      var init := fields[..|fields| - 1];
      var g := fields[|fields| - 1];
      assert fields == init + [g];
      AddRowKeys(d, init, el);
      assert (set f | f in fields) == (set f | f in init) + {g};
    }
  }

  /** One row of the inner loop: a field's column gets the row's cell
      appended once per occurrence of the field name. */
  lemma {:induction false} AddRowCell(d: map<string, seq<Value>>, fields: seq<string>, el: Row, f: string)
    requires forall j :: 0 <= j < |fields| ==> fields[j] in el
    requires f in el
    ensures Cell(AddRow(d, fields, el), f) == Cell(d, f) + Repeat(el[f], multiset(fields)[f])
    decreases |fields|
  {
    if fields == [] {
      assert Cell(d, f) + [] == Cell(d, f);
    } else {
      var init := fields[..|fields| - 1];
      var g := fields[|fields| - 1];
      assert fields == init + [g];
      RowCount(init, g, f);
      AddRowCell(d, init, el, f);
      var prev := AddRow(d, init, el);
      if f == g {
        calc {
          Cell(AddRow(d, fields, el), f);
          Cell(prev, f) + [el[f]];
          (Cell(d, f) + Repeat(el[f], multiset(init)[f])) + [el[f]];
          Cell(d, f) + Repeat(el[f], multiset(fields)[f]);
        }
      } else {
        assert Cell(AddRow(d, fields, el), f) == Cell(prev, f);
      }
    }
  }

  lemma RowCount(init: seq<string>, g: string, f: string)
    ensures multiset(init + [g])[f] == multiset(init)[f] + (if f == g then 1 else 0)
    ensures f in init + [g] <==> f in init || f == g
  {
    assert multiset(init + [g]) == multiset(init) + multiset{g};
  }

  /** The pivot in closed form: a column for each field name once there is a
      row, holding each row's cell once per occurrence of the name. */
  lemma {:induction false} PivotedColumns(fields: seq<string>, rows: seq<Row>)
    requires AllPresent(fields, rows)
    ensures Pivoted(fields, rows).Keys == if rows == [] then {} else set f | f in fields
    ensures forall f :: f in Pivoted(fields, rows) ==>
              Pivoted(fields, rows)[f] == ColumnOf(f, multiset(fields)[f], rows)
    decreases |rows|
  {
    if rows != [] {
      var init := rows[..|rows| - 1];
      assert AllPresent(fields, init) by {
        assert forall i :: 0 <= i < |init| ==> init[i] == rows[i];
      }
      PivotedColumns(fields, init);
      AddRowKeys(Pivoted(fields, init), fields, rows[|rows| - 1]);
      forall f | f in Pivoted(fields, rows)
        ensures Pivoted(fields, rows)[f] == ColumnOf(f, multiset(fields)[f], rows)
      {
        assert f in fields;
        PivotedStep(fields, rows, f);
      }
    }
  }

  lemma PivotedStep(fields: seq<string>, rows: seq<Row>, f: string)
    requires AllPresent(fields, rows) && rows != [] && f in fields
    requires AllPresent(fields, rows[..|rows| - 1])
    requires rows[..|rows| - 1] == [] ==> f !in Pivoted(fields, rows[..|rows| - 1])
    requires rows[..|rows| - 1] != [] ==>
               && f in Pivoted(fields, rows[..|rows| - 1])
               && Pivoted(fields, rows[..|rows| - 1])[f] == ColumnOf(f, multiset(fields)[f], rows[..|rows| - 1])
    requires f in Pivoted(fields, rows)
    ensures Pivoted(fields, rows)[f] == ColumnOf(f, multiset(fields)[f], rows)
  {
    var init := rows[..|rows| - 1];
    var el := rows[|rows| - 1];
    var m := multiset(fields)[f];
    var q := Pivoted(fields, init);
    var j :| 0 <= j < |fields| && fields[j] == f;
    assert f in el;
    AddRowCell(q, fields, el, f);
    assert Pivoted(fields, rows)[f] == Cell(q, f) + Repeat(el[f], m);
    assert ColumnOf(f, m, rows) == ColumnOf(f, m, init) + Repeat(el[f], m);
    if init == [] {
      assert Cell(q, f) == [];
      assert ColumnOf(f, m, init) == [];
    } else {
      assert Cell(q, f) == ColumnOf(f, m, init);
    }
  }

  /** The loops compute exactly the dictionary `Columns` describes. */
  lemma PivotedIsColumns(fields: seq<string>, rows: seq<Row>)
    requires AllPresent(fields, rows)
    ensures Pivoted(fields, rows) == Columns(fields, rows)
  {
    PivotedColumns(fields, rows);
    var p := Pivoted(fields, rows);
    var c := Columns(fields, rows);
    assert p.Keys == c.Keys;
    forall f | f in p ensures p[f] == c[f] {}
  }

  /** The cell of every row, in row order, as a pandas column keyed 0..n-1. */
  function IndexMap(column: seq<Value>): map<Key, Value> {
    map i | 0 <= i < |column| :: Index(i) := column[i]
  }

  const RaggedColumns: Failure := ValueError("All arrays must be of the same length")

  /** `pd.DataFrame(d).to_dict()`: columns of unequal length raise, otherwise
      each column becomes a map from row index to cell. */
  function ToDict(columns: map<string, seq<Value>>): (r: Result<map<Key, Value>>)
    ensures r.Raised? <==> exists f, g :: f in columns && g in columns && |columns[f]| != |columns[g]|
    ensures r.Raised? ==> r == Raised(RaggedColumns)
    ensures r.Ok? ==> && r.value.Keys == (set f | f in columns :: Name(f))
                      && forall f :: f in columns ==> r.value[Name(f)] == Dict(IndexMap(columns[f]))
  {
    if exists f, g :: f in columns && g in columns && |columns[f]| != |columns[g]| then
      Raised(RaggedColumns)
    else
      var frame := map f | f in columns :: Name(f) := Dict(IndexMap(columns[f]));
      assert frame.Keys == (set f | f in columns :: Name(f)) by {
        forall k ensures k in frame <==> k in (set f | f in columns :: Name(f)) {
          if k in frame { assert k == Name(k.name); }
        }
      }
      Ok(frame)
  }

  /** The imperative pivot: its result is Pivot's. */
  method PivotRows(fields: seq<string>, rows: seq<Row>) returns (r: Result<map<string, seq<Value>>>)
    ensures r == Pivot(fields, rows)
  {
    var d: map<string, seq<Value>> := map[];
    for i := 0 to |rows|
      invariant AllPresent(fields, rows[..i])
      invariant d == Pivoted(fields, rows[..i])
    {
      ghost var done := rows[..i];
      assert rows[..i + 1][..i] == done;
      var missing;
      missing, d := AddCells(d, fields, rows[i]);
      if missing.Some? {
        FirstMissingNone(fields, done);
        FirstMissingStays(fields, rows, i + 1);
        return Raised(KeyError(missing.value));
      }
      MissingInNone(fields, rows[i]);
      assert AllPresent(fields, rows[..i + 1]);
    }
    assert rows[..|rows|] == rows;
    FirstMissingNone(fields, rows);
    return Ok(d);
  }

  /** The inner loop of the pivot for one row `el`: the first field the row
      lacks, or else every field's cell appended to its column. */
  method AddCells(d: map<string, seq<Value>>, fields: seq<string>, el: Row)
    returns (missing: Option<string>, r: map<string, seq<Value>>)
    ensures missing == MissingIn(fields, el)
    ensures missing.None? ==> (forall j :: 0 <= j < |fields| ==> fields[j] in el) && r == AddRow(d, fields, el)
  {
    r := d;
    for j := 0 to |fields|
      invariant forall jj :: 0 <= jj < j ==> fields[jj] in el
      invariant MissingIn(fields[..j], el).None?
      invariant r == AddRow(d, fields[..j], el)
    {
      var field := fields[j];
      assert fields[..j + 1][..j] == fields[..j];
      if field !in el {
        MissingInStays(fields, el, j + 1);
        return Some(field), r;
      }
      MissingInNone(fields[..j + 1], el);
      if field in r {
        r := r[field := r[field] + [el[field]]];
      } else {
        assert [] + [el[field]] == [el[field]];
        r := r[field := [el[field]]];
      }
      assert fields[..j + 1][j] == field;
    }
    assert fields[..|fields|] == fields;
    missing := None;
  }

  function DataFragment(resp: DataMessage): Result<map<Key, Value>> {
    if resp.query.Some? then
      var q := resp.query.value;
      Ok(map[RetrievalQueryKey := Dict(map[
        Name("query_name") := Str(q.name),
        Name("question") := Str(q.question),
        Name("datasources") := List(SourceNames(q.datasources))])])
    else if resp.generatedSql.Some? then
      Ok(map[SqlGeneratedKey := Str(resp.generatedSql.value)])
    else if resp.result.Some? then
      match Pivot(FieldNames(resp.result.value.schema.fields), resp.result.value.data)
      case Raised(e) => Raised(e)
      case Ok(d) =>
        match ToDict(d)
        case Raised(e) => Raised(e)
        case Ok(frame) => Ok(map[DataRetrievedKey := Dict(frame)])
    else Ok(map[])
  }

  method HandleDataResponse(resp: DataMessage) returns (r: Result<map<Key, Value>>)
    ensures r == DataFragment(resp)
  {
    if resp.query.Some? {
      var query := resp.query.value;
      var datasources := ResolveDatasourceNames(query.datasources);
      assert datasources == SourceNames(query.datasources);
      r := Ok(map[RetrievalQueryKey := Dict(map[
        Name("query_name") := Str(query.name),
        Name("question") := Str(query.question),
        Name("datasources") := List(datasources)])]);
    } else if resp.generatedSql.Some? {
      r := Ok(map[SqlGeneratedKey := Str(resp.generatedSql.value)]);
    } else if resp.result.Some? {
      var fields := FieldNames(resp.result.value.schema.fields);
      var d := PivotRows(fields, resp.result.value.data);
      if d.Raised? {
        r := Raised(d.failure);
      } else {
        var frame := ToDict(d.value);
        r := if frame.Raised? then Raised(frame.failure) else Ok(map[DataRetrievedKey := Dict(frame.value)]);
      }
    } else {
      r := Ok(map[]);
    }
  }

  lemma {:induction false} ColumnOfSize(f: string, m: nat, rows: seq<Row>)
    requires forall i :: 0 <= i < |rows| ==> f in rows[i]
    ensures |ColumnOf(f, m, rows)| == |rows| * m
    decreases |rows|
  {
    if rows != [] {
      ColumnOfSize(f, m, rows[..|rows| - 1]);
      assert |rows| * m == (|rows| - 1) * m + m;
    }
  }

  /** A field named once holds one cell per row, in row order. */
  lemma {:induction false} ColumnOfOnce(f: string, rows: seq<Row>)
    requires forall i :: 0 <= i < |rows| ==> f in rows[i]
    ensures |ColumnOf(f, 1, rows)| == |rows|
    ensures forall i :: 0 <= i < |rows| ==> ColumnOf(f, 1, rows)[i] == rows[i][f]
    decreases |rows|
  {
    if rows != [] {
      var init := rows[..|rows| - 1];
      ColumnOfOnce(f, init);
      assert forall i :: 0 <= i < |init| ==> init[i] == rows[i];
    }
  }

  /** A data result raises KeyError exactly when some row lacks some schema
      field, and then with the key of the first failing lookup, rows outer and
      fields inner. */
  lemma DataKeyError(resp: DataMessage)
    requires resp.query.None? && resp.generatedSql.None? && resp.result.Some?
    ensures var fields := FieldNames(resp.result.value.schema.fields);
            var rows := resp.result.value.data;
            (DataFragment(resp).Raised? && DataFragment(resp).failure.KeyError?)
            <==> exists i, j :: 0 <= i < |rows| && 0 <= j < |fields| && fields[j] !in rows[i]
    ensures var fields := FieldNames(resp.result.value.schema.fields);
            var rows := resp.result.value.data;
            DataFragment(resp).Raised? && DataFragment(resp).failure.KeyError? ==>
              FirstMissing(fields, rows).Some? && DataFragment(resp) == Raised(KeyError(FirstMissing(fields, rows).value))
  {
    var fields := FieldNames(resp.result.value.schema.fields);
    var rows := resp.result.value.data;
    FirstMissingNone(fields, rows);
    if AllPresent(fields, rows) {
      PivotedColumns(fields, rows);
      var d := Pivoted(fields, rows);
      if exists f, g :: f in d && g in d && |d[f]| != |d[g]| {
        assert ToDict(d) == Raised(RaggedColumns);
      }
    }
  }

  /** No rows: the table is the empty dictionary. */
  lemma DataNoRows(resp: DataMessage)
    requires resp.query.None? && resp.generatedSql.None? && resp.result.Some?
    requires resp.result.value.data == []
    ensures DataFragment(resp) == Ok(map[DataRetrievedKey := Dict(map[])])
  {
    var fields := FieldNames(resp.result.value.schema.fields);
    FirstMissingNone(fields, []);
  }

  /** Distinct field names, every cell present, at least one row: the table
      maps each field name to a column keyed by row index 0..n-1, and the cell
      at index i is row i's value for that field. */
  lemma DataTable(resp: DataMessage) returns (table: map<Key, Value>)
    requires resp.query.None? && resp.generatedSql.None? && resp.result.Some?
    requires var fields := FieldNames(resp.result.value.schema.fields);
             var rows := resp.result.value.data;
             && rows != []
             && (forall j, k :: 0 <= j < k < |fields| ==> fields[j] != fields[k])
             && (forall i, j :: 0 <= i < |rows| && 0 <= j < |fields| ==> fields[j] in rows[i])
    ensures DataFragment(resp) == Ok(map[DataRetrievedKey := Dict(table)])
    ensures var fields := FieldNames(resp.result.value.schema.fields);
            var rows := resp.result.value.data;
            && table.Keys == (set f | f in fields :: Name(f))
            && forall f :: f in fields ==>
                 && table[Name(f)].Dict?
                 && table[Name(f)].fields.Keys == (set i | 0 <= i < |rows| :: Index(i))
                 && forall i :: 0 <= i < |rows| ==> table[Name(f)].fields[Index(i)] == rows[i][f]
  {
    var fields := FieldNames(resp.result.value.schema.fields);
    var rows := resp.result.value.data;
    var d := PivotDistinct(fields, rows);
    table := TableOf(d, fields, rows);
  }

  /** `to_dict` of columns that hold one cell per row, in row order. */
  lemma TableOf(d: map<string, seq<Value>>, fields: seq<string>, rows: seq<Row>) returns (table: map<Key, Value>)
    requires forall i, j :: 0 <= i < |rows| && 0 <= j < |fields| ==> fields[j] in rows[i]
    requires d.Keys == set f | f in fields
    requires forall f :: f in d ==> |d[f]| == |rows| && forall i :: 0 <= i < |rows| ==> d[f][i] == rows[i][f]
    ensures ToDict(d) == Ok(table)
    ensures table.Keys == (set f | f in fields :: Name(f))
    ensures forall f :: f in fields ==>
              && table[Name(f)].Dict?
              && table[Name(f)].fields.Keys == (set i | 0 <= i < |rows| :: Index(i))
              && forall i :: 0 <= i < |rows| ==> table[Name(f)].fields[Index(i)] == rows[i][f]
  {
    NotRagged(d, |rows|);
    table := ToDict(d).value;
    forall f | f in fields
      ensures table[Name(f)].Dict?
      ensures table[Name(f)].fields.Keys == (set i | 0 <= i < |rows| :: Index(i))
      ensures forall i :: 0 <= i < |rows| ==> table[Name(f)].fields[Index(i)] == rows[i][f]
    {
      IndexMapKeys(d[f]);
    }
  }

  /** With distinct field names and every cell present, the pivot has one
      column per field holding each row's cell in row order. */
  lemma PivotDistinct(fields: seq<string>, rows: seq<Row>) returns (d: map<string, seq<Value>>)
    requires rows != []
    requires forall j, k :: 0 <= j < k < |fields| ==> fields[j] != fields[k]
    requires forall i, j :: 0 <= i < |rows| && 0 <= j < |fields| ==> fields[j] in rows[i]
    ensures Pivot(fields, rows) == Ok(d)
    ensures d.Keys == set f | f in fields
    ensures forall f :: f in d ==> |d[f]| == |rows| && forall i :: 0 <= i < |rows| ==> d[f][i] == rows[i][f]
  {
    FirstMissingNone(fields, rows);
    PivotedColumns(fields, rows);
    d := Pivoted(fields, rows);
    forall f | f in fields
      ensures |d[f]| == |rows| && forall i :: 0 <= i < |rows| ==> d[f][i] == rows[i][f]
    {
      DistinctOnce(fields, f);
      ColumnOfOnce(f, rows);
    }
  }

  /** Columns of one common length cannot be ragged. */
  lemma NotRagged(columns: map<string, seq<Value>>, n: nat)
    requires forall f :: f in columns ==> |columns[f]| == n
    ensures ToDict(columns).Ok?
  {
    forall f, g | f in columns && g in columns ensures |columns[f]| == |columns[g]| {}
  }

  /** A pandas column dictionary is keyed by exactly the row indices. */
  lemma IndexMapKeys(column: seq<Value>)
    ensures IndexMap(column).Keys == set i | 0 <= i < |column| :: Index(i)
  {
    var m := IndexMap(column);
    forall k ensures k in m <==> k in (set i | 0 <= i < |column| :: Index(i)) {
      if k in m { assert k == Index(k.index); }
    }
  }

  lemma {:induction false} DistinctOnce(xs: seq<string>, x: string)
    requires forall j, k :: 0 <= j < k < |xs| ==> xs[j] != xs[k]
    requires x in xs
    ensures multiset(xs)[x] == 1
    decreases |xs|
  {
    var init := xs[..|xs| - 1];
    assert xs == init + [xs[|xs| - 1]];
    if x == xs[|xs| - 1] {
      assert x !in init;
    } else {
      DistinctOnce(init, x);
    }
  }

  /** With rows present, fields named a different number of times give columns
      of different lengths, which pandas refuses. */
  lemma DataRagged(resp: DataMessage, f: string, g: string)
    requires resp.query.None? && resp.generatedSql.None? && resp.result.Some?
    requires var fields := FieldNames(resp.result.value.schema.fields);
             var rows := resp.result.value.data;
             && rows != [] && f in fields && g in fields
             && multiset(fields)[f] != multiset(fields)[g]
             && (forall i, j :: 0 <= i < |rows| && 0 <= j < |fields| ==> fields[j] in rows[i])
    ensures DataFragment(resp) == Raised(RaggedColumns)
  {
    var fields := FieldNames(resp.result.value.schema.fields);
    var rows := resp.result.value.data;
    FirstMissingNone(fields, rows);
    PivotedColumns(fields, rows);
    var d := Pivoted(fields, rows);
    ColumnOfSize(f, multiset(fields)[f], rows);
    ColumnOfSize(g, multiset(fields)[g], rows);
    if multiset(fields)[f] < multiset(fields)[g] {
      MulStrict(|rows|, multiset(fields)[f], multiset(fields)[g]);
    } else {
      MulStrict(|rows|, multiset(fields)[g], multiset(fields)[f]);
    }
    assert |d[f]| != |d[g]|;
  }

  lemma MulStrict(n: nat, a: nat, b: nat)
    requires n > 0 && a < b
    ensures n * a < n * b
  {
    assert n * b == n * a + n * (b - a);
  }

  // ---------------------------------------------------------------------
  // Chart: converting the vega configuration to plain dictionaries
  // ---------------------------------------------------------------------

  /** `MessageToDict(None)`: None has no message descriptor. */
  const NoDescriptor: Failure := AttributeError("'NoneType' object has no attribute 'DESCRIPTOR'")

  /** `_value_to_dict`. Every exception it can raise is `NoDescriptor`, so the
      order in which a map's keys are visited does not change the outcome. */
  function ValueToDict(v: ProtoValue): Result<Value>
    decreases v, 1
  {
    match v
    case PMap(entries) =>
      (match ConvertEntries(entries)
       case Raised(f) => Raised(f)
       case Ok(c) => Ok(Dict(c)))
    case PList(elements) =>
      if exists i :: 0 <= i < |elements| && ValueToDict(elements[i]).Raised? then Raised(NoDescriptor)
      else Ok(List(seq(|elements|, i requires 0 <= i < |elements| => ValueToDict(elements[i]).value)))
    case PInt(i) => Ok(Int(i))
    case PFloat(x) => Ok(Float(x))
    case PStr(s) => Ok(Str(s))
    case PBool(b) => Ok(Bool(b))
    case PNone => Raised(NoDescriptor)
    case PMessage(d) => Ok(d)
  }

  /** The conversion keeps the keys of a map and the length of a list, passes
      scalars through unchanged, and fails on a None leaf. */
  lemma ValueToDictShape(v: ProtoValue)
    ensures ValueToDict(v).Raised? ==> ValueToDict(v) == Raised(NoDescriptor)
    ensures v.PMap? && ValueToDict(v).Ok? ==>
              ValueToDict(v).value.Dict? && ValueToDict(v).value.fields.Keys == set k | k in v.entries :: Name(k)
    ensures v.PList? && ValueToDict(v).Ok? ==>
              ValueToDict(v).value.List? && |ValueToDict(v).value.items| == |v.elements|
    ensures v.PInt? ==> ValueToDict(v) == Ok(Int(v.i))
    ensures v.PFloat? ==> ValueToDict(v) == Ok(Float(v.x))
    ensures v.PStr? ==> ValueToDict(v) == Ok(Str(v.s))
    ensures v.PBool? ==> ValueToDict(v) == Ok(Bool(v.b))
    ensures v.PNone? ==> ValueToDict(v) == Raised(NoDescriptor)
  {
  }

  /** What `_map_to_dict` computes: the same keys, each value converted, or
      the exception of a value that cannot be converted. */
  function ConvertEntries(entries: map<string, ProtoValue>): (r: Result<map<Key, Value>>)
    ensures r.Raised? ==> r == Raised(NoDescriptor)
    ensures r.Ok? ==> r.value.Keys == set k | k in entries :: Name(k)
    decreases PMap(entries), 0
  {
    if exists k :: k in entries && ValueToDict(entries[k]).Raised? then Raised(NoDescriptor)
    else Ok(map k | k in entries :: Name(k) := ValueToDict(entries[k]).value)
  }

  /** A None somewhere inside the value. */
  predicate HasNone(v: ProtoValue) {
    match v
    case PMap(entries) => exists k :: k in entries && HasNone(entries[k])
    case PList(elements) => exists i :: 0 <= i < |elements| && HasNone(elements[i])
    case PNone => true
    case _ => false
  }

  /** The conversion raises exactly when a None is nested somewhere inside. */
  lemma {:induction false} ValueToDictRaises(v: ProtoValue)
    ensures ValueToDict(v).Raised? <==> HasNone(v)
    decreases v
  {
    match v
    case PMap(entries) =>
      forall k | k in entries ensures ValueToDict(entries[k]).Raised? <==> HasNone(entries[k]) {
        ValueToDictRaises(entries[k]);
      }
    case PList(elements) =>
      forall i | 0 <= i < |elements| ensures ValueToDict(elements[i]).Raised? <==> HasNone(elements[i]) {
        ValueToDictRaises(elements[i]);
      }
    case PInt(_) =>
    case PFloat(_) =>
    case PStr(_) =>
    case PBool(_) =>
    case PNone =>
    case PMessage(_) =>
  }

  /** `_map_to_dict`: fills `out` key by key; a value that cannot be
      converted ends the loop with its exception. */
  method MapToDict(d: map<string, ProtoValue>) returns (r: Result<map<Key, Value>>)
    ensures r == ConvertEntries(d)
    decreases PMap(d), 0
  {
    var out: map<Key, Value> := map[];
    var todo := d.Keys;
    ghost var done: set<string> := {};
    while todo != {}
      invariant todo <= d.Keys && done == d.Keys - todo
      invariant forall key :: key in out ==> key.Name? && key.name in done
      invariant forall s :: s in done ==> ValueToDict(d[s]).Ok? && Name(s) in out && out[Name(s)] == ValueToDict(d[s]).value
      decreases todo
    {
      var k :| k in todo;
      var v := EntryToDict(d[k]);
      if v.Raised? {
        assert k in d && ValueToDict(d[k]).Raised?;
        return Raised(NoDescriptor);
      }
      out := out[Name(k) := v.value];
      done := done + {k};
      todo := todo - {k};
    }
    ConvertedMap(d, out);
    r := Ok(out);
  }

  /** A map holding exactly the converted value of every key is the result
      of the conversion. */
  lemma ConvertedMap(d: map<string, ProtoValue>, out: map<Key, Value>)
    requires forall key :: key in out ==> key.Name? && key.name in d
    requires forall s :: s in d ==> ValueToDict(d[s]).Ok? && Name(s) in out && out[Name(s)] == ValueToDict(d[s]).value
    ensures ConvertEntries(d) == Ok(out)
  {
    var c := ConvertEntries(d);
    assert c.Ok?;
    forall key ensures key in out <==> key in c.value {
      if key in c.value { assert key == Name(key.name); }
    }
    forall key | key in out ensures out[key] == c.value[key] {
      assert key == Name(key.name);
    }
    assert out == c.value;
  }

  /** The body of `_map_to_dict`'s loop: a nested map goes through the
      recursive call, any other value through `_value_to_dict`. */
  method EntryToDict(v: ProtoValue) returns (r: Result<Value>)
    ensures r == ValueToDict(v)
    decreases v, 1
  {
    if v.PMap? {
      var sub := MapToDict(v.entries);
      r := if sub.Raised? then Raised(sub.failure) else Ok(Dict(sub.value));
    } else {
      r := ValueToDict(v);
    }
  }

  /** A proto value with no leaf left to `MessageToDict`. */
  predicate NoMessages(v: ProtoValue) {
    match v
    case PMap(entries) => forall k :: k in entries ==> NoMessages(entries[k])
    case PList(elements) => forall i :: 0 <= i < |elements| ==> NoMessages(elements[i])
    case PNone => false
    case PMessage(_) => false
    case _ => true
  }

  /** Reads a plain value back as a proto value (string keys only). */
  function ToProto(v: Value): ProtoValue {
    match v
    case Null => PMessage(Null)
    case Bool(b) => PBool(b)
    case Int(i) => PInt(i)
    case Float(x) => PFloat(x)
    case Str(s) => PStr(s)
    case List(items) => PList(seq(|items|, i requires 0 <= i < |items| => ToProto(items[i])))
    case Dict(fields) => PMap(ToProtoEntries(fields))
  }

  function ToProtoEntries(fields: map<Key, Value>): map<string, ProtoValue>
    decreases Dict(fields), 0
  {
    map k | k in fields && k.Name? :: k.name := ToProto(fields[k])
  }

  /** The conversion succeeds and loses nothing: keys, list lengths and order,
      and scalars come back unchanged. */
  lemma {:induction false} ValueToDictRoundTrip(v: ProtoValue)
    requires NoMessages(v)
    ensures ValueToDict(v).Ok? && ToProto(ValueToDict(v).value) == v
    decreases v
  {
    match v
    case PMap(entries) =>
      forall k | k in entries
        ensures ValueToDict(entries[k]).Ok? && ToProto(ValueToDict(entries[k]).value) == entries[k]
      {
        ValueToDictRoundTrip(entries[k]);
      }
      EntriesRoundTrip(entries);
    case PList(elements) =>
      forall i | 0 <= i < |elements|
        ensures ValueToDict(elements[i]).Ok? && ToProto(ValueToDict(elements[i]).value) == elements[i]
      {
        ValueToDictRoundTrip(elements[i]);
      }
      var c := seq(|elements|, i requires 0 <= i < |elements| => ValueToDict(elements[i]).value);
      assert ValueToDict(v) == Ok(List(c));
      assert forall i :: 0 <= i < |elements| ==> ToProto(c[i]) == elements[i];
    case PInt(_) =>
    case PFloat(_) =>
    case PStr(_) =>
    case PBool(_) =>
  }

  lemma EntriesRoundTrip(entries: map<string, ProtoValue>)
    requires forall k :: k in entries ==> ValueToDict(entries[k]).Ok? && ToProto(ValueToDict(entries[k]).value) == entries[k]
    ensures ConvertEntries(entries).Ok? && ToProtoEntries(ConvertEntries(entries).value) == entries
  {
    var c := map k | k in entries :: Name(k) := ValueToDict(entries[k]).value;
    ConvertedMap(entries, c);
    ReadBack(entries, c);
  }

  /** A map whose value under `Name(s)` reads back as entry `s` reads back as the entries. */
  lemma ReadBack(entries: map<string, ProtoValue>, c: map<Key, Value>)
    requires forall key :: key in c ==> key.Name? && key.name in entries
    requires forall s :: s in entries ==> Name(s) in c && ToProto(c[Name(s)]) == entries[s]
    ensures ToProtoEntries(c) == entries
  {
    var back := ToProtoEntries(c);
    forall s ensures s in back <==> s in entries {
      assert Name(s).name == s;
    }
    forall s | s in back ensures back[s] == entries[s] {
      assert back[s] == ToProto(c[Name(s)]);
    }
  }

  /** `for k in None` in `_map_to_dict`, for a result without a configuration. */
  const NoConfig: Failure := TypeError("'NoneType' object is not iterable")

  function ChartFragment(resp: ChartMessage): Result<map<Key, Value>> {
    if resp.query.Some? then Ok(map[ChartQueryKey := Str(resp.query.value.instructions)])
    else if resp.result.Some? then
      match resp.result.value.vegaConfig
      case None => Raised(NoConfig)
      case Some(config) =>
        match ConvertEntries(config)
        case Raised(f) => Raised(f)
        case Ok(c) => Ok(map[ChartResultKey := Dict(c)])
    else Ok(map[])
  }

  method HandleChartResponse(resp: ChartMessage) returns (r: Result<map<Key, Value>>)
    ensures r == ChartFragment(resp)
  {
    if resp.query.Some? {
      r := Ok(map[ChartQueryKey := Str(resp.query.value.instructions)]);
    } else if resp.result.Some? {
      var vegaConfig := resp.result.value.vegaConfig;
      if vegaConfig.None? {
        return Raised(NoConfig);
      }
      var vegaConfigDict := MapToDict(vegaConfig.value);
      if vegaConfigDict.Raised? {
        return Raised(vegaConfigDict.failure);
      }
      r := Ok(map[ChartResultKey := Dict(vegaConfigDict.value)]);
    } else {
      r := Ok(map[]);
    }
  }

  /** A chart result fails exactly when its configuration is unset, which is
      the TypeError of iterating None, or when some value of the configuration
      holds a None, which is the AttributeError of `MessageToDict(None)`. */
  lemma ChartRaises(resp: ChartMessage)
    requires resp.query.None? && resp.result.Some?
    ensures var config := resp.result.value.vegaConfig;
            && (config.None? ==> ChartFragment(resp) == Raised(NoConfig))
            && (config.Some? ==>
                  && (ChartFragment(resp).Raised? <==> exists k :: k in config.value && HasNone(config.value[k]))
                  && (ChartFragment(resp).Raised? ==> ChartFragment(resp) == Raised(NoDescriptor)))
  {
    if resp.result.value.vegaConfig.Some? {
      var config := resp.result.value.vegaConfig.value;
      forall k | k in config ensures ValueToDict(config[k]).Raised? <==> HasNone(config[k]) {
        ValueToDictRaises(config[k]);
      }
    }
  }

  // ---------------------------------------------------------------------
  // Dispatch
  // ---------------------------------------------------------------------

  /** What `show_message` returns for a system message: text first, then
      schema, data and chart; anything else is the empty dictionary. */
  function Classify(m: SystemMessage): (r: Result<map<Key, Value>>)
    ensures r.Ok? ==> |r.value| <= 1 && r.value.Keys <= FragmentKeys
    ensures r.Raised? ==> m.text.None? && m.schema.None? && (m.data.Some? || m.chart.Some?)
  {
    if m.text.Some? then Ok(HandleTextResponse(m.text.value))
    else if m.schema.Some? then Ok(SchemaFragment(m.schema.value))
    else if m.data.Some? then DataFragment(m.data.value)
    else if m.chart.Some? then ChartFragment(m.chart.value)
    else Ok(map[])
  }

  method ShowMessage(msg: ChatMessage) returns (r: Result<map<Key, Value>>)
    ensures r == Classify(msg.systemMessage)
  {
    var m := msg.systemMessage;
    if m.text.Some? {
      r := Ok(HandleTextResponse(m.text.value));
    } else if m.schema.Some? {
      var s := HandleSchemaResponse(m.schema.value);
      r := Ok(s);
    } else if m.data.Some? {
      r := HandleDataResponse(m.data.value);
    } else if m.chart.Some? {
      r := HandleChartResponse(m.chart.value);
    } else {
      r := Ok(map[]);
    }
  }
}
