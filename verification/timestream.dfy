/** The time-series adapter: decoding query pages into typed rows and
    name-to-value records, the paginated query, and writing rows as
    multi-measure records in chunks of 100.

    Query pages and write answers are inputs. A DOUBLE, TIMESTAMP, DATE or
    TIME cell is kept as its text (`VUnparsed`): floats and the calendar
    are not modelled.
 */
module TimeSeries {
  import opened Wrappers
  import opened Records
  import opened Helpers
  import Text

  /** Records per `write_records` request. */
  const BatchSize: nat := 100

  /** The cell types `_cast_value` knows. */
  const KnownTypes: set<string> := {"VARCHAR", "INTEGER", "BIGINT", "DOUBLE", "BOOLEAN", "TIMESTAMP", "DATE", "TIME", "ARRAY"}

  // ---------------------------------------------------------------------
  // Decoding query results

  /** `_cast_value(value, data_type)`. */
  function CastValue(value: string, dataType: string): (r: Result<Value>)
    ensures r.Err? <==> dataType !in KnownTypes || ((dataType == "INTEGER" || dataType == "BIGINT") && Text.ParseInt(value).Err?)
    ensures r.Err? ==> r.error.ValueError?
    ensures dataType == "VARCHAR" || dataType == "ARRAY" ==> r == Ok(VStr(value))
    ensures (dataType == "INTEGER" || dataType == "BIGINT") && r.Ok? ==> r == Ok(VInt(Text.ParseInt(value).value))
    ensures dataType == "BOOLEAN" ==> r == Ok(VBool(Text.AsciiLower(value) == "true"))
    ensures dataType in {"DOUBLE", "TIMESTAMP", "DATE", "TIME"} ==> r == Ok(VUnparsed(dataType, value))
  {
    if dataType == "VARCHAR" then Ok(VStr(value))
    else if dataType == "INTEGER" || dataType == "BIGINT" then
      match Text.ParseInt(value)
      case Ok(i) => Ok(VInt(i))
      case Err(e) => Err(e)
    else if dataType == "DOUBLE" then Ok(VUnparsed(dataType, value))
    else if dataType == "BOOLEAN" then Ok(VBool(Text.AsciiLower(value) == "true"))
    else if dataType == "TIMESTAMP" || dataType == "DATE" || dataType == "TIME" then Ok(VUnparsed(dataType, value))
    else if dataType == "ARRAY" then Ok(VStr(value))
    else Err(ValueError("Unsupported Amazon Timestream type: " + dataType))
  }

  /** An integer column gives back the integer whose text the store sent,
      and a boolean column the boolean Python would print, as "True" or
      "False". */
  lemma CastValueRoundTrip(i: int, b: bool)
    ensures CastValue(Text.IntToString(i), "BIGINT") == Ok(VInt(i))
    ensures CastValue(Text.IntToString(i), "INTEGER") == Ok(VInt(i))
    ensures CastValue(Str(VBool(b)), "BOOLEAN") == Ok(VBool(b))
  {
    Text.IntToStringRoundTrip(i);
    if b {
      assert Text.AsciiLower("True") == "true";
    } else {
      assert Text.AsciiLower("False")[0] == 'f';
    }
  }

  /** The `Type` of a column: its "ScalarType" and its "ArrayColumnInfo"
      (the latter kept as text), each possibly missing. */
  datatype ColumnType = ColumnType(scalar: Option<string>, arrayInfo: Option<string>)

  /** An entry of a page's `ColumnInfo`. */
  datatype ColumnInfo = ColumnInfo(name: string, typ: ColumnType)

  /** `{"name": ..., "type": ...}`. */
  datatype ColumnSchema = ColumnSchema(name: string, typ: string)

  predicate Typed(c: ColumnInfo) {
    c.typ.scalar.Some? || c.typ.arrayInfo.Some?
  }

  /** The schema entry of a typed column: the scalar type when there is one. */
  function SchemaOf(c: ColumnInfo): ColumnSchema
    requires Typed(c)
  {
    ColumnSchema(c.name, if c.typ.scalar.Some? then c.typ.scalar.value else c.typ.arrayInfo.value)
  }

  /** `_process_schema(page)`: one entry per column in order, or ValueError
      at the first column that is neither scalar nor array. */
  function ProcessSchema(info: seq<ColumnInfo>): (r: Result<seq<ColumnSchema>>)
    ensures r.Ok? <==> forall i :: 0 <= i < |info| ==> Typed(info[i])
    ensures r.Ok? ==> |r.value| == |info| && forall i :: 0 <= i < |info| ==> r.value[i] == SchemaOf(info[i])
    ensures r.Err? ==> r.error.ValueError?
    decreases |info|
  {
    if |info| == 0 then Ok([])
    else if !Typed(info[0]) then
      Err(ValueError("Query with non ScalarType or ArrayColumnInfo for column " + info[0].name))
    else
      match ProcessSchema(info[1..])
      case Err(e) =>
        assert forall i :: 0 <= i < |info| - 1 ==> info[1..][i] == info[i + 1];
        Err(e)
      case Ok(rest) => Ok([SchemaOf(info[0])] + rest)
  }

  /** One cell of a row: whether `NullValue` is truthy, and its
      "ScalarValue" and "ArrayValue" (the latter kept as text). */
  datatype Datum = Datum(nullValue: bool, scalar: Option<string>, arrayValue: Option<string>)

  /** One cell of `_process_row_data`. */
  function ProcessDatum(col: ColumnSchema, d: Datum): (r: Result<Value>)
    ensures d.nullValue ==> r == Ok(VNull)
    ensures !d.nullValue && d.scalar.Some? ==> r == CastValue(d.scalar.value, col.typ)
    ensures !d.nullValue && d.scalar.None? && d.arrayValue.Some? ==> r == Ok(VStr(d.arrayValue.value))
    ensures !d.nullValue && d.scalar.None? && d.arrayValue.None? ==> r.Err? && r.error.ValueError?
  {
    if d.nullValue then Ok(VNull)
    else if d.scalar.Some? then CastValue(d.scalar.value, col.typ)
    else if d.arrayValue.Some? then CastValue(d.arrayValue.value, "ARRAY")
    else Err(ValueError("Query with non ScalarType/ArrayColumnInfo/NullValue for column " + col.name))
  }

  /** `_process_row_data(schema, {"Data": data})`: the cells `zip` pairs
      with a column, so as many as the shorter of the two; the first bad
      cell raises. */
  function ProcessRowData(schema: seq<ColumnSchema>, data: seq<Datum>): (r: Result<seq<Value>>)
    ensures r.Ok? <==> forall i :: 0 <= i < Min(|schema|, |data|) ==> ProcessDatum(schema[i], data[i]).Ok?
    ensures r.Ok? ==> |r.value| == Min(|schema|, |data|)
    ensures r.Ok? ==> forall i :: 0 <= i < |r.value| ==> r.value[i] == ProcessDatum(schema[i], data[i]).value
    decreases |data|
  {
    if |schema| == 0 || |data| == 0 then Ok([])
    else
      match ProcessDatum(schema[0], data[0])
      case Err(e) => Err(e)
      case Ok(v) =>
        match ProcessRowData(schema[1..], data[1..])
        case Err(e) =>
          assert exists i :: 0 <= i < Min(|schema| - 1, |data| - 1) && ProcessDatum(schema[1..][i], data[1..][i]).Err?;
          Err(e)
        case Ok(rest) => Ok([v] + rest)
  }

  /** Every row of a page through `_process_row_data`, in order. */
  function ProcessRows(schema: seq<ColumnSchema>, rows: seq<seq<Datum>>): (r: Result<seq<seq<Value>>>)
    ensures r.Ok? <==> forall i :: 0 <= i < |rows| ==> ProcessRowData(schema, rows[i]).Ok?
    ensures r.Ok? ==> |r.value| == |rows| && forall i :: 0 <= i < |rows| ==> r.value[i] == ProcessRowData(schema, rows[i]).value
    decreases |rows|
  {
    if |rows| == 0 then Ok([])
    else
      match ProcessRowData(schema, rows[0])
      case Err(e) => Err(e)
      case Ok(row) =>
        match ProcessRows(schema, rows[1..])
        case Err(e) =>
          assert exists i :: 0 <= i < |rows| - 1 && ProcessRowData(schema, rows[1..][i]).Err?;
          Err(e)
        case Ok(rest) => Ok([row] + rest)
  }

  function Names(schema: seq<ColumnSchema>): (ns: seq<string>)
    ensures |ns| == |schema| && forall i :: 0 <= i < |schema| ==> ns[i] == schema[i].name
  {
    seq(|schema|, i requires 0 <= i < |schema| => schema[i].name)
  }

  /** `row[k] = v` for each `(k, v)` of `zip(names, values)`, in order. */
  function SerializeRow(names: seq<string>, values: seq<Value>): Record {
    SerializePrefix(names, values, Min(|names|, |values|))
  }

  /** The dictionary after the first `n` assignments of `SerializeRow`. */
  function SerializePrefix(names: seq<string>, values: seq<Value>, n: nat): Record
    requires n <= |names| && n <= |values|
  {
    if n == 0 then [] else Put(SerializePrefix(names, values, n - 1), names[n - 1], values[n - 1])
  }

  /** With distinct column names the first `n` assignments give the
      dictionary of the first `n` columns and values, in column order. */
  lemma {:induction false} SerializePrefixPairs(names: seq<string>, values: seq<Value>, n: nat)
    requires n <= |names| && n <= |values| && Distinct(names)
    ensures SerializePrefix(names, values, n) == FromPairs(names[..n], values[..n])
  {
    if n > 0 {
      SerializePrefixPairs(names, values, n - 1);
      var prev := FromPairs(names[..n - 1], values[..n - 1]);
      assert names[n - 1] !in names[..n - 1];
      PutFresh(prev, names[n - 1], values[n - 1]);
      assert FromPairs(names[..n], values[..n]) == prev + [Field(names[n - 1], values[n - 1])];
    }
  }

  /** With distinct column names a serialized row has one key per paired
      column, in column order, and each name reads back its own value. */
  lemma SerializeRowGet(names: seq<string>, values: seq<Value>)
    requires Distinct(names)
    ensures Keys(SerializeRow(names, values)) == names[..Min(|names|, |values|)]
    ensures forall i :: 0 <= i < Min(|names|, |values|) ==> Get(SerializeRow(names, values), names[i]) == Some(values[i])
  {
    var n := Min(|names|, |values|);
    SerializePrefixPairs(names, values, n);
    var r := FromPairs(names[..n], values[..n]);
    forall i | 0 <= i < n
      ensures Get(r, names[i]) == Some(values[i])
    {
      GetAt(r, i, names[i]);
    }
  }

  /** `_serialize_rows(row_list, schema)`. */
  function SerializeRows(rows: seq<seq<Value>>, schema: seq<ColumnSchema>): (rs: seq<Record>)
    ensures |rs| == |rows|
    ensures forall i :: 0 <= i < |rows| ==> rs[i] == SerializeRow(Names(schema), rows[i])
  {
    seq(|rows|, i requires 0 <= i < |rows| => SerializeRow(Names(schema), rows[i]))
  }

  // ---------------------------------------------------------------------
  // Paginated queries

  /** The first and last row number `wrap_in_pagination_query` selects. */
  function Window(pageSize: int, pageAfter: int): (int, int) {
    (pageAfter + 1, pageAfter + pageSize)
  }

  /** The clause that cuts the numbered rows to the window `[lo, hi]`. */
  function WindowClause(lo: string, hi: string): string {
    "WHERE row_num BETWEEN " + lo + " and " + hi + "\n    "
  }

  /** The statement numbered by the sort order, awaiting its window clause. */
  function NumberedRows(select: string, sortBy: string, sortOrder: string): string {
    "\n    SELECT *\n    FROM (\n        SELECT\n            ROW_NUMBER() OVER (\n"
      + "                ORDER BY row_of_interest." + sortBy + " " + sortOrder + "\n"
      + "            ) AS row_num,\n            row_of_interest.*\n        FROM (\n\n            "
      + select + "\n\n        ) row_of_interest\n    )\n    "
  }

  /** `wrap_in_pagination_query(select_statement, page_size, page_after,
      sort_by, sort_order)`: the statement numbered by the sort order and
      cut to the window's rows. */
  function WrapInPaginationQuery(select: string, pageSize: int, pageAfter: int, sortBy: string, sortOrder: string): (q: string)
    ensures var w := Window(pageSize, pageAfter);
      var tail := WindowClause(Text.IntToString(w.0), Text.IntToString(w.1));
      |q| >= |tail| && q[|q| - |tail|..] == tail
  {
    var w := Window(pageSize, pageAfter);
    var head := NumberedRows(select, sortBy, sortOrder);
    var tail := WindowClause(Text.IntToString(w.0), Text.IntToString(w.1));
    Text.ConcatSuffix(head, tail);
    head + tail
  }

  /** The window reads back out of the statement: its final clause is
      `WHERE row_num BETWEEN lo and hi` where `lo` and `hi` parse as
      `page_after + 1` and `page_after + page_size`. */
  lemma PaginationWindowReadsBack(select: string, pageSize: int, pageAfter: int, sortBy: string, sortOrder: string)
    ensures var q := WrapInPaginationQuery(select, pageSize, pageAfter, sortBy, sortOrder);
      var lo := Text.IntToString(pageAfter + 1);
      var hi := Text.IntToString(pageAfter + pageSize);
      var tail := WindowClause(lo, hi);
      && |q| >= |tail| && q[|q| - |tail|..] == tail
      && tail == "WHERE row_num BETWEEN " + lo + " and " + hi + "\n    "
      && Text.ParseInt(lo) == Ok(pageAfter + 1)
      && Text.ParseInt(hi) == Ok(pageAfter + pageSize)
  {
    var w := Window(pageSize, pageAfter);
    assert w == (pageAfter + 1, pageAfter + pageSize);
    Text.IntToStringRoundTrip(w.0);
    Text.IntToStringRoundTrip(w.1);
  }

  /** A row number is selected iff it comes after `page_after` and is at
      most `page_size` past it, so a window holds `page_size` rows, and the
      windows of pages `k * page_size` for k = 0, 1, ... tile the row numbers
      from 1: each falls in exactly one. */
  lemma WindowsTile(pageSize: int, r: int, k: int, k': int)
    requires pageSize > 0 && r >= 1
    ensures var w := Window(pageSize, k * pageSize); w.1 - w.0 + 1 == pageSize
    ensures var w := Window(pageSize, k * pageSize);
      w.0 <= r <= w.1 <==> k * pageSize < r <= k * pageSize + pageSize
    ensures var w := Window(pageSize, ((r - 1) / pageSize) * pageSize); w.0 <= r <= w.1
    ensures var w := Window(pageSize, k * pageSize); var w' := Window(pageSize, k' * pageSize);
      w.0 <= r <= w.1 && w'.0 <= r <= w'.1 ==> k == k'
  {
    var q := (r - 1) / pageSize;
    assert q * pageSize <= r - 1 < q * pageSize + pageSize;
    if k * pageSize < r <= k * pageSize + pageSize && k' * pageSize < r <= k' * pageSize + pageSize {
      if k < k' {
        MulLe(k + 1, k', pageSize);
      } else if k' < k {
        MulLe(k' + 1, k, pageSize);
      }
    }
  }

  lemma MulLe(a: int, b: int, n: int)
    requires a <= b && n > 0
    ensures a * n <= b * n
  {
    MulNonNeg(b - a, n);
  }

  /** A page of query results: its column info and its rows' cells. */
  datatype QueryPage = QueryPage(columnInfo: seq<ColumnInfo>, rows: seq<seq<Datum>>)

  /** A row as `query` yields it: the raw cells, or with `transform` the
      name-to-value record. */
  datatype Item = RawRow(data: seq<Datum>) | Serialized(record: Record)

  /** What iterating `_paginate_query` gives: the chunks it yields and the
      error it raises after them, if any. */
  datatype Chunks = Chunks(chunks: seq<seq<Item>>, error: Option<Error>)

  /** `_paginate_query(sql, config, transform=False)`: each page's rows as
      they are, one chunk per page, empty pages included. */
  function PaginateRaw(pages: seq<QueryPage>): (c: Chunks)
    ensures c.error.None? && |c.chunks| == |pages|
    ensures forall i :: 0 <= i < |pages| ==>
      |c.chunks[i]| == |pages[i].rows| && forall j :: 0 <= j < |pages[i].rows| ==> c.chunks[i][j] == RawRow(pages[i].rows[j])
  {
    Chunks(seq(|pages|, i requires 0 <= i < |pages| =>
             seq(|pages[i].rows|, j requires 0 <= j < |pages[i].rows| => RawRow(pages[i].rows[j]))), None)
  }

  function AsSerialized(records: seq<Record>): (items: seq<Item>)
    ensures |items| == |records| && forall i :: 0 <= i < |records| ==> items[i] == Serialized(records[i])
  {
    seq(|records|, i requires 0 <= i < |records| => Serialized(records[i]))
  }

  /** `_paginate_query(sql, config, transform=True)` with the schema read so
      far: the schema is read from the first page while it is still empty,
      and a page with rows yields them decoded and serialized. */
  function PaginateTransformed(pages: seq<QueryPage>, schema: seq<ColumnSchema>): (c: Chunks)
    decreases |pages|
  {
    if |pages| == 0 then Chunks([], None)
    else
      var page := pages[0];
      match (if |schema| == 0 then ProcessSchema(page.columnInfo) else Ok(schema))
      case Err(e) => Chunks([], Some(e))
      case Ok(schema') =>
        match ProcessRows(schema', page.rows)
        case Err(e) => Chunks([], Some(e))
        case Ok(rows) =>
          var rest := PaginateTransformed(pages[1..], schema');
          var chunk := if |rows| > 0 then [AsSerialized(SerializeRows(rows, schema'))] else [];
          Chunks(chunk + rest.chunks, rest.error)
  }

  /** The chunks expected from pages decoded with one fixed schema: one per
      page that has rows. */
  function ExpectedChunks(pages: seq<QueryPage>, schema: seq<ColumnSchema>): seq<seq<Item>>
    requires forall i :: 0 <= i < |pages| ==> ProcessRows(schema, pages[i].rows).Ok?
    decreases |pages|
  {
    if |pages| == 0 then []
    else
      var rows := ProcessRows(schema, pages[0].rows).value;
      (if |rows| > 0 then [AsSerialized(SerializeRows(rows, schema))] else [])
        + ExpectedChunks(pages[1..], schema)
  }

  /** Once the schema is non-empty it is never read again: later pages'
      column info is ignored, pages without rows yield nothing, and every
      other page yields its rows decoded with that schema. */
  lemma {:induction false} SchemaReadOnce(pages: seq<QueryPage>, schema: seq<ColumnSchema>)
    requires |schema| > 0
    requires forall i :: 0 <= i < |pages| ==> ProcessRows(schema, pages[i].rows).Ok?
    ensures PaginateTransformed(pages, schema) == Chunks(ExpectedChunks(pages, schema), None)
    decreases |pages|
  {
    if |pages| > 0 {
      assert forall i :: 0 <= i < |pages| - 1 ==> pages[1..][i] == pages[i + 1];
      SchemaReadOnce(pages[1..], schema);
    }
  }

  /** A transformed query takes its schema from the first page: when that
      page's columns are non-empty and all typed, every page is decoded
      with them. */
  lemma {:induction false} FirstPageSchema(pages: seq<QueryPage>)
    requires |pages| > 0 && |pages[0].columnInfo| > 0
    requires ProcessSchema(pages[0].columnInfo).Ok?
    requires forall i :: 0 <= i < |pages| ==> ProcessRows(ProcessSchema(pages[0].columnInfo).value, pages[i].rows).Ok?
    ensures PaginateTransformed(pages, [])
      == Chunks(ExpectedChunks(pages, ProcessSchema(pages[0].columnInfo).value), None)
  {
    var schema := ProcessSchema(pages[0].columnInfo).value;
    assert forall i :: 0 <= i < |pages| - 1 ==> pages[1..][i] == pages[i + 1];
    SchemaReadOnce(pages[1..], schema);
  }

  /** What `query` returns: the iterator itself when `chunked`, else the
      rows of every chunk in order, or the error the iteration raised. */
  datatype QueryResult = Lazy(chunks: Chunks) | Rows(result: Result<seq<Item>>)

  /** `query(sql, page_size, chunked, transform)` over the pages the store
      returns for it. */
  function Query(pages: seq<QueryPage>, chunked: bool, transform: bool): (q: QueryResult)
    ensures chunked <==> q.Lazy?
    ensures var it := if transform then PaginateTransformed(pages, []) else PaginateRaw(pages);
      && (chunked ==> q.chunks == it)
      && (!chunked ==> (q.result.Ok? <==> it.error.None?))
      && (!chunked && it.error.None? ==> q.result.value == Concat(it.chunks))
  {
    var it := if transform then PaginateTransformed(pages, []) else PaginateRaw(pages);
    if chunked then Lazy(it)
    else if it.error.Some? then Rows(Err(it.error.value))
    else Rows(Ok(Concat(it.chunks)))
  }

  /** Without `transform` and `chunked`, `query` returns every page's rows,
      page after page, as they came. */
  lemma {:induction false} RawQueryFlattens(pages: seq<QueryPage>)
    ensures Query(pages, false, false) == Rows(Ok(AllRows(pages)))
    decreases |pages|
  {
    var it := PaginateRaw(pages);
    if |pages| > 0 {
      RawQueryFlattens(pages[1..]);
      var rest := PaginateRaw(pages[1..]);
      assert it.chunks == [it.chunks[0]] + rest.chunks;
      ConcatCons(it.chunks[0], rest.chunks);
      assert it.chunks[0] == seq(|pages[0].rows|, j requires 0 <= j < |pages[0].rows| => RawRow(pages[0].rows[j]));
    } else {
      assert it.chunks == [];
    }
  }

  /** Every page's rows, page after page. */
  function AllRows(pages: seq<QueryPage>): seq<Item>
    decreases |pages|
  {
    if |pages| == 0 then []
    else seq(|pages[0].rows|, j requires 0 <= j < |pages[0].rows| => RawRow(pages[0].rows[j])) + AllRows(pages[1..])
  }

  // ---------------------------------------------------------------------
  // Writing

  datatype Dimension = Dimension(name: string, value: Value, valueType: string)

  datatype MeasureValue = MeasureValue(name: string, value: Value, valueType: string)

  /** A multi-measure record as `_prepare_records` builds it. */
  datatype TsRecord = TsRecord(
    dimensions: seq<Dimension>,
    time: Value,
    timeUnit: string,
    measureName: string,
    measureValueType: string,
    measureValues: seq<MeasureValue>)

  /** `str(col_types.get(col))`. */
  function TypeText(colTypes: map<string, DataType>, col: string): string {
    if col in colTypes then colTypes[col].Name() else "None"
  }

  /** The fields of `row` whose key is in `cols`, in row order. */
  function Select(row: Record, cols: seq<string>): (fs: Record)
    ensures forall f :: f in fs <==> f in row && f.key in cols
    ensures |fs| <= |row|
    decreases |row|
  {
    if |row| == 0 then []
    else
      var rest := Select(row[1..], cols);
      assert forall f :: f in row <==> f == row[0] || f in row[1..];
      if row[0].key in cols then [row[0]] + rest else rest
  }

  /** Selection keeps the row's order and drops nothing it should keep: the
      fields of two disjoint column lists together number as many as the
      fields of either list. */
  lemma {:induction false} SelectDisjoint(row: Record, a: seq<string>, b: seq<string>)
    requires forall c :: c in a ==> c !in b
    ensures |Select(row, a)| + |Select(row, b)| == |Select(row, a + b)|
    decreases |row|
  {
    if |row| > 0 {
      SelectDisjoint(row[1..], a, b);
    }
  }

  function Dimensions(row: Record, colTypes: map<string, DataType>, cols: seq<string>): (ds: seq<Dimension>)
    ensures |ds| == |Select(row, cols)|
    ensures forall i :: 0 <= i < |ds| ==> var f := Select(row, cols)[i];
      ds[i] == Dimension(f.key, f.value, TypeText(colTypes, f.key))
  {
    var fs := Select(row, cols);
    seq(|fs|, i requires 0 <= i < |fs| => Dimension(fs[i].key, fs[i].value, TypeText(colTypes, fs[i].key)))
  }

  function Measures(row: Record, colTypes: map<string, DataType>, cols: seq<string>): (ms: seq<MeasureValue>)
    ensures |ms| == |Select(row, cols)|
    ensures forall i :: 0 <= i < |ms| ==> var f := Select(row, cols)[i];
      ms[i] == MeasureValue(f.key, f.value, TypeText(colTypes, f.key))
  {
    var fs := Select(row, cols);
    seq(|fs|, i requires 0 <= i < |fs| => MeasureValue(fs[i].key, fs[i].value, TypeText(colTypes, fs[i].key)))
  }

  /** `_prepare_records(rows, col_types, time_col, measure_cols, dimension_cols)`. */
  function PrepareRecords(rows: seq<Record>, colTypes: map<string, DataType>, timeCol: string,
                          measureCols: seq<string>, dimensionCols: seq<string>): (rs: seq<TsRecord>)
    ensures |rs| == |rows|
  {
    seq(|rows|, i requires 0 <= i < |rows| =>
      TsRecord(Dimensions(rows[i], colTypes, dimensionCols), Get(rows[i], timeCol).GetOr(VNull),
               "MILLISECONDS", "record", "MULTI", Measures(rows[i], colTypes, measureCols)))
  }

  /** Record i comes from row i: its dimensions are exactly the row's
      dimension columns and its measures exactly the row's measure columns,
      each with the value it has in the row and its declared type; its time
      is the row's time column; and it is a MULTI record named "record" in
      milliseconds. */
  lemma PreparedRecordOfRow(rows: seq<Record>, colTypes: map<string, DataType>, timeCol: string,
                            measureCols: seq<string>, dimensionCols: seq<string>, i: nat)
    requires i < |rows|
    ensures var r := PrepareRecords(rows, colTypes, timeCol, measureCols, dimensionCols)[i];
      && (forall f :: f in rows[i] && f.key in dimensionCols <==> Field(f.key, f.value) in Select(rows[i], dimensionCols))
      && |r.dimensions| == |Select(rows[i], dimensionCols)|
      && (forall k :: 0 <= k < |r.dimensions| ==> var d := r.dimensions[k];
            Field(d.name, d.value) in rows[i] && d.name in dimensionCols && d.valueType == TypeText(colTypes, d.name))
      && (forall k :: 0 <= k < |r.measureValues| ==> var m := r.measureValues[k];
            Field(m.name, m.value) in rows[i] && m.name in measureCols && m.valueType == TypeText(colTypes, m.name))
      && |r.measureValues| == |Select(rows[i], measureCols)|
      && (Get(rows[i], timeCol).Some? ==> r.time == Get(rows[i], timeCol).value)
      && r.timeUnit == "MILLISECONDS" && r.measureName == "record" && r.measureValueType == "MULTI"
  {
    var r := PrepareRecords(rows, colTypes, timeCol, measureCols, dimensionCols)[i];
    forall k | 0 <= k < |r.dimensions|
      ensures Field(r.dimensions[k].name, r.dimensions[k].value) in rows[i]
    {
      assert Select(rows[i], dimensionCols)[k] in Select(rows[i], dimensionCols);
    }
    forall k | 0 <= k < |r.measureValues|
      ensures Field(r.measureValues[k].name, r.measureValues[k].value) in rows[i]
    {
      assert Select(rows[i], measureCols)[k] in Select(rows[i], measureCols);
    }
  }

  /** `_write_record_batch(record_batch)` given the store's answer: refused
      records are logged (index and reason) and not raised; any other error
      propagates. */
  function WriteRecordBatch(reply: Result<()>): (r: (Result<()>, seq<Rejection>))
    ensures r.0.Err? <==> reply.Err? && !reply.error.RejectedRecords?
    ensures r.0.Err? ==> r.0 == reply
    ensures r.1 == if reply.Err? && reply.error.RejectedRecords? then reply.error.rejected else []
  {
    if reply.Err? && reply.error.RejectedRecords? then (Ok(()), reply.error.rejected)
    else (reply, [])
  }

  predicate AllOk(rs: seq<Result<()>>) {
    forall i :: 0 <= i < |rs| ==> rs[i].Ok?
  }

  /** The first failure of a collection of concurrent sub-batches, by batch index. */
  function FirstError(rs: seq<Result<()>>): (r: Result<()>)
    ensures r.Ok? <==> AllOk(rs)
    ensures r.Err? ==> exists i :: 0 <= i < |rs| && rs[i] == r && AllOk(rs[..i])
    decreases |rs|
  {
    if |rs| == 0 then Ok(())
    else if rs[0].Err? then
      assert AllOk(rs[..0]);
      rs[0]
    else
      var r := FirstError(rs[1..]);
      assert forall i :: 0 <= i < |rs| - 1 && AllOk(rs[1..][..i]) ==> rs[..i + 1] == [rs[0]] + rs[1..][..i];
      r
  }

  /** What a write did: its outcome, the record batches it submitted, the
      rejections it logged and the timing samples after it. */
  datatype TsWrite = TsWrite(result: Result<()>, batches: seq<seq<TsRecord>>, rejected: seq<Rejection>, samples: seq<Scope>)

  function WriteScope(n: nat): Scope {
    Scope("timestream", "basic_write", Some(n), None)
  }

  /** `_write_records(records)`: every batch of 100 is submitted at once, the
      answer to batch i is `replies(i)`, and the wait for all of them is timed. */
  function WriteRecords(records: seq<TsRecord>, replies: nat -> Result<()>, samples: seq<Scope>): (w: TsWrite)
    ensures Concat(w.batches) == records && WellChunked(w.batches, BatchSize)
    ensures w.result.Ok? <==> forall i :: 0 <= i < |w.batches| ==> WriteRecordBatch(replies(i)).0.Ok?
    ensures w.result.Ok? ==> w.samples == samples + [WriteScope(|records|)]
    ensures w.result.Err? ==> w.samples == samples
  {
    var batches := Batches(records, BatchSize);
    BatchesConcat(records, BatchSize);
    BatchesShape(records, BatchSize);
    var outcomes := seq(|batches|, i requires 0 <= i < |batches| => WriteRecordBatch(replies(i)));
    var oks := seq(|batches|, i requires 0 <= i < |batches| => outcomes[i].0);
    assert forall i :: 0 <= i < |batches| ==> oks[i] == WriteRecordBatch(replies(i)).0;
    var result := FirstError(oks);
    var rejected := Concat(seq(|batches|, i requires 0 <= i < |batches| => outcomes[i].1));
    TsWrite(result, batches, rejected, Timed(samples, WriteScope(|records|), result))
  }

  /** The `measure_col` argument: one column name or a list of them. */
  datatype MeasureCols = OneMeasure(col: string) | ManyMeasures(cols: seq<string>)

  function MeasureList(m: MeasureCols): seq<string> {
    match m
    case OneMeasure(c) => [c]
    case ManyMeasures(cs) => cs
  }

  /** `write(rows, col_types, time_col, measure_col, dimensions_cols)`. */
  function Write(rows: seq<Record>, colTypes: map<string, DataType>, timeCol: string, measureCol: MeasureCols,
                 dimensionCols: seq<string>, replies: nat -> Result<()>, samples: seq<Scope>): (w: TsWrite)
    ensures |rows| == 0 ==> w == TsWrite(Ok(()), [], [], samples)
    ensures |rows| > 0 ==> Concat(w.batches) == PrepareRecords(rows, colTypes, timeCol, MeasureList(measureCol), dimensionCols)
    ensures WellChunked(w.batches, BatchSize)
  {
    if |rows| == 0 then TsWrite(Ok(()), [], [], samples)
    else WriteRecords(PrepareRecords(rows, colTypes, timeCol, MeasureList(measureCol), dimensionCols), replies, samples)
  }

  /** A single measure column is written exactly as a one-element list of it. */
  lemma OneMeasureIsList(rows: seq<Record>, colTypes: map<string, DataType>, timeCol: string, col: string,
                         dimensionCols: seq<string>, replies: nat -> Result<()>, samples: seq<Scope>)
    ensures Write(rows, colTypes, timeCol, OneMeasure(col), dimensionCols, replies, samples)
         == Write(rows, colTypes, timeCol, ManyMeasures([col]), dimensionCols, replies, samples)
  {
  }

  /** When the store refuses records but raises nothing else, the write
      succeeds, is timed, and logs the refusals of every batch in batch
      order; and one batch failing otherwise fails the write, untimed. */
  lemma RejectedRecordsDoNotAbort(records: seq<TsRecord>, replies: nat -> Result<()>, samples: seq<Scope>)
    ensures var w := WriteRecords(records, replies, samples);
      && ((forall i :: 0 <= i < |w.batches| ==> replies(i).Ok? || replies(i).error.RejectedRecords?)
            <==> w.result.Ok?)
      && (w.result.Ok? ==> w.samples == samples + [WriteScope(|records|)])
      && (forall i :: 0 <= i < |w.batches| && replies(i).Err? && replies(i).error.RejectedRecords? ==>
            forall x :: x in replies(i).error.rejected ==> x in w.rejected)
  {
    var w := WriteRecords(records, replies, samples);
    var batches := Batches(records, BatchSize);
    var outcomes := seq(|batches|, i requires 0 <= i < |batches| => WriteRecordBatch(replies(i)));
    var logs := seq(|batches|, i requires 0 <= i < |batches| => outcomes[i].1);
    forall i, x | 0 <= i < |batches| && replies(i).Err? && replies(i).error.RejectedRecords? && x in replies(i).error.rejected
      ensures x in w.rejected
    {
      assert logs[i] == replies(i).error.rejected;
      ConcatHas(logs, i, x);
    }
  }

  lemma {:induction false} ConcatHas<T>(xss: seq<seq<T>>, i: nat, x: T)
    requires i < |xss| && x in xss[i]
    ensures x in Concat(xss)
    decreases i
  {
    ConcatCons(xss[0], xss[1..]);
    assert [xss[0]] + xss[1..] == xss;
    if i > 0 {
      assert xss[1..][i - 1] == xss[i];
      ConcatHas(xss[1..], i - 1, x);
    }
  }
}
