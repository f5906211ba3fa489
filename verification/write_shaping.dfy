/** src/write_helpers.py, the per-store preparation: the type maps of the
    search and relational stores, the conversion of timestamps for the
    relational store, the text form and column roles for the time-series
    store, and the log stream name.
 */
module RecordShaping {
  import opened Wrappers
  import opened Records
  import opened Helpers
  import Text
  import Events
  import Relational

  /** The index and the table the records are written to. */
  const EventsIndex := "monitoring_events"
  const EventsTable := "monitoring_events"

  /** `field_types.get(name)`: the declared type of the first field of that name. */
  function LookupType(types: seq<(string, DataType)>, name: string): (t: Option<DataType>)
    ensures t.Some? <==> name in Events.SchemaNames(types)
    ensures t.Some? ==> exists i :: 0 <= i < |types| && types[i] == (name, t.value)
    decreases |types|
  {
    if |types| == 0 then None
    else if types[0].0 == name then Some(types[0].1)
    else
      var t := LookupType(types[1..], name);
      assert Events.SchemaNames(types) == [types[0].0] + Events.SchemaNames(types[1..]);
      assert t.Some? ==> types[1..] == types[1..] && exists i :: 0 <= i < |types| - 1 && types[1..][i] == (name, t.value);
      t
  }

  // ---------------------------------------------------------------------
  // Search store

  /** `es_type_for_data.get(t)`: no mapping type for DOUBLE. */
  function EsType(t: DataType): Option<string> {
    match t
    case String => Some("keyword")
    case Integer => Some("integer")
    case Boolean => Some("boolean")
    case Timestamp => Some("date")
    case Double => None
  }

  /** The data type a mapping type stands for. */
  function EsDataType(s: string): Option<DataType> {
    if s == "keyword" then Some(String)
    else if s == "integer" then Some(Integer)
    else if s == "boolean" then Some(Boolean)
    else if s == "date" then Some(Timestamp)
    else None
  }

  /** Every type but DOUBLE has its own mapping type, which names it back. */
  lemma EsTypeRoundTrip(t: DataType)
    ensures EsType(t).Some? <==> t != Double
    ensures EsType(t).Some? ==> EsDataType(EsType(t).value) == Some(t)
  {
  }

  /** `index_settings["mappings"]["properties"]`: one property per schema
      field, in order, typed by `EsType` (None stands for JSON null). */
  function EsProperties(types: seq<(string, DataType)>): (props: seq<(string, Option<string>)>)
    ensures |props| == |types|
    ensures forall i :: 0 <= i < |types| ==> props[i] == (types[i].0, EsType(types[i].1))
  {
    seq(|types|, i requires 0 <= i < |types| => (types[i].0, EsType(types[i].1)))
  }

  /** Every field of a job record gets a mapping type, which reads back as
      the field's declared type. */
  lemma EventPropertiesTyped()
    ensures var props := EsProperties(Events.EventFieldTypes);
      forall i :: 0 <= i < |props| ==>
        props[i].1.Some? && EsDataType(props[i].1.value) == Some(Events.EventFieldTypes[i].1)
  {
    forall i | 0 <= i < |Events.EventFieldTypes|
      ensures Events.EventFieldTypes[i].1 != Double
    {
    }
  }

  // ---------------------------------------------------------------------
  // Relational store

  /** `postgres_type_for_data.get(t)`, as `create_table` formats it. */
  function PgType(t: DataType): string {
    match t
    case String => "text"
    case Integer => "integer"
    case Boolean => "boolean"
    case Timestamp => "timestamp"
    case Double => "None"
  }

  /** `d[name] = typ` on the column dictionary. */
  function AssignColumn(cols: seq<Relational.ColumnDecl>, name: string, typ: string): (r: seq<Relational.ColumnDecl>)
    ensures (exists i :: 0 <= i < |cols| && cols[i].name == name) ==> |r| == |cols|
    ensures (forall i :: 0 <= i < |cols| ==> cols[i].name != name) ==> r == cols + [Relational.ColumnDecl(name, typ)]
    decreases |cols|
  {
    if |cols| == 0 then [Relational.ColumnDecl(name, typ)]
    else if cols[0].name == name then [Relational.ColumnDecl(name, typ)] + cols[1..]
    else
      var rest := AssignColumn(cols[1..], name, typ);
      assert (exists i :: 0 <= i < |cols| && cols[i].name == name) ==> exists i :: 0 <= i < |cols| - 1 && cols[1..][i].name == name;
      [cols[0]] + rest
  }

  /** `col_name_and_types` of `_write_to_rds`. */
  function RdsColumns(types: seq<(string, DataType)>): seq<Relational.ColumnDecl> {
    var mapped := seq(|types|, i requires 0 <= i < |types| => Relational.ColumnDecl(types[i].0, PgType(types[i].1)));
    AssignColumn(mapped, "id", "serial")
  }

  /** The columns indexed after the table is created, in order. */
  const IndexedColumns: seq<string> := ["ingestion_batch_id", "user_id", "repo_id", "job_id", "created_at", "time"]

  /** The statements `_write_to_rds` runs before the insert, for a schema. */
  function RdsSetup(types: seq<(string, DataType)>): seq<string> {
    [Relational.CreateTableSql(EventsTable, "id", RdsColumns(types))]
      + seq(|IndexedColumns|, i requires 0 <= i < |IndexedColumns| => Relational.CreateIndexSql(EventsTable, IndexedColumns[i]))
  }

  /** The job table has a column per record field, typed by `PgType`, then
      the serial "id" column; "id" is the only one marked PRIMARY KEY; and
      the six indexes have six different names. */
  lemma RdsTableShape()
    ensures var cols := RdsColumns(Events.EventFieldTypes);
      && |cols| == |Events.EventFieldTypes| + 1
      && (forall i :: 0 <= i < |Events.EventFieldTypes| ==>
            cols[i] == Relational.ColumnDecl(Events.EventFieldTypes[i].0, PgType(Events.EventFieldTypes[i].1)))
      && cols[|cols| - 1] == Relational.ColumnDecl("id", "serial")
      && (forall i :: 0 <= i < |cols| ==> (cols[i].name == "id" <==> i == |cols| - 1))
    ensures forall i, j :: 0 <= i < j < |IndexedColumns| ==>
      Relational.IndexName(EventsTable, IndexedColumns[i]) != Relational.IndexName(EventsTable, IndexedColumns[j])
  {
    var types := Events.EventFieldTypes;
    var names := Events.SchemaNames(types);
    assert "id" !in names;
    forall i, j | 0 <= i < j < |IndexedColumns|
      ensures Relational.IndexName(EventsTable, IndexedColumns[i]) != Relational.IndexName(EventsTable, IndexedColumns[j])
    {
      Relational.IndexNamesDistinct(EventsTable, IndexedColumns[i], IndexedColumns[j]);
    }
  }

  /** `datetime.fromtimestamp(value / 1000)`: a number of milliseconds
      becomes that instant (a boolean counts as 0 or 1); anything else
      cannot be divided. */
  function ToDateTime(v: Value): (r: Result<Value>)
    ensures v.VInt? ==> r == Ok(VDateTime(v.i))
    ensures r.Err? <==> !(v.VInt? || v.VBool?)
  {
    match v
    case VInt(ms) => Ok(VDateTime(ms))
    case VBool(b) => Ok(VDateTime(if b then 1 else 0))
    case _ => Err(TypeError("unsupported operand type(s) for /"))
  }

  /** The conversion loop of `_write_to_rds` on one record: every field
      declared TIMESTAMP is converted, in order; the first that cannot be
      raises. */
  function ConvertForRds(types: seq<(string, DataType)>, r: Record): (c: Result<Record>)
    ensures c.Ok? ==> |c.value| == |r| && Keys(c.value) == Keys(r)
    ensures c.Ok? <==> forall i :: 0 <= i < |r| && LookupType(types, r[i].key) == Some(Timestamp) ==> ToDateTime(r[i].value).Ok?
    ensures c.Ok? ==> forall i :: 0 <= i < |r| ==>
      c.value[i].value == if LookupType(types, r[i].key) == Some(Timestamp) then ToDateTime(r[i].value).value else r[i].value
    decreases |r|
  {
    if |r| == 0 then Ok([])
    else
      var f := r[0];
      var v := if LookupType(types, f.key) == Some(Timestamp) then ToDateTime(f.value) else Ok(f.value);
      match v
      case Err(e) => Err(e)
      case Ok(v') =>
        match ConvertForRds(types, r[1..])
        case Err(e) =>
          assert exists i :: 0 <= i < |r| - 1 && LookupType(types, r[1..][i].key) == Some(Timestamp) && ToDateTime(r[1..][i].value).Err?;
          Err(e)
        case Ok(rest) =>
          KeysCons(Field(f.key, v'), rest);
          KeysCons(f, r[1..]);
          assert r == [f] + r[1..];
          Ok([Field(f.key, v')] + rest)
  }

  /** The conversion of every record; the first failure raises. */
  function ConvertAllForRds(types: seq<(string, DataType)>, rs: seq<Record>): (c: Result<seq<Record>>)
    ensures c.Ok? <==> forall i :: 0 <= i < |rs| ==> ConvertForRds(types, rs[i]).Ok?
    ensures c.Ok? ==> |c.value| == |rs| && forall i :: 0 <= i < |rs| ==> c.value[i] == ConvertForRds(types, rs[i]).value
    decreases |rs|
  {
    if |rs| == 0 then Ok([])
    else
      var f := (r': Record) => ConvertForRds(types, r');
      match ConvertForRds(types, rs[0])
      case Err(e) => Err(e)
      case Ok(r) =>
        match ConvertAllForRds(types, rs[1..])
        case Err(e) =>
          assert exists i :: 0 <= i < |rs| - 1 && ConvertForRds(types, rs[1..][i]).Err?;
          Err(e)
        case Ok(rest) =>
          MapOkCons(f, rs, r, rest);
          Ok([r] + rest)
  }

  /** Mapping a failing step over a list: when the head and every element
      of the tail map to Ok, so does every element of the list, and the
      values line up with the mapped head followed by the mapped tail. */
  lemma MapOkCons<A, B>(f: A -> Result<B>, xs: seq<A>, y: B, rest: seq<B>)
    requires |xs| > 0 && f(xs[0]) == Ok(y) && |rest| == |xs| - 1
    requires forall i :: 0 <= i < |rest| ==> f(xs[1..][i]).Ok? && rest[i] == f(xs[1..][i]).value
    ensures forall i :: 0 <= i < |xs| ==> f(xs[i]).Ok? && ([y] + rest)[i] == f(xs[i]).value
  {
    assert forall i :: 1 <= i < |xs| ==> xs[i] == xs[1..][i - 1];
  }

  /** A record laid out as a schema with distinct names, each value of its
      declared type, converts: the TIMESTAMP fields become instants, the
      others keep their values, and the keys stay as they are. */
  lemma {:induction false} ConvertLaidOut(types: seq<(string, DataType)>, r: Record)
    requires Unshadowed(types) && Keys(r) == Events.SchemaNames(types)
    requires forall i :: 0 <= i < |r| ==> Events.HasType(r[i].value, types[i].1)
    ensures ConvertForRds(types, r).Ok?
    ensures forall i :: 0 <= i < |r| ==>
      && ConvertForRds(types, r).value[i].key == r[i].key
      && Ok(ConvertForRds(types, r).value[i].value) == if types[i].1 == Timestamp then ToDateTime(r[i].value) else Ok(r[i].value)
  {
    forall i | 0 <= i < |r|
      ensures LookupType(types, r[i].key) == Some(types[i].1)
    {
      assert r[i].key == Events.SchemaNames(types)[i] == types[i].0;
    }
  }

  /** Only the timestamp fields of a job record are touched: its time and
      creation time become instants, every other field keeps its value. */
  lemma RdsConvertsOnlyTimestamps(e: Events.IngestionEvent)
    ensures var r := Events.AsDict(e); var c := ConvertForRds(Events.EventFieldTypes, r);
      && c.Ok?
      && Keys(c.value) == Keys(r)
      && (forall i :: 0 <= i < |r| && Events.EventFieldTypes[i].1 != Timestamp ==> c.value[i] == r[i])
      && c.value[8] == Field("created_at", VDateTime(e.batch.createdAt))
      && c.value[11] == Field("time", VDateTime(e.time))
  {
    Events.AsDictMatchesSchema(e);
    Events.AsDictTimes(e);
    EventFieldsUnshadowed();
    ConvertLaidOut(Events.EventFieldTypes, Events.AsDict(e));
  }

  /** In a schema with distinct names the i-th name looks up the i-th type. */
  lemma {:induction false} LookupDistinct(types: seq<(string, DataType)>, i: nat)
    requires i < |types| && Distinct(Events.SchemaNames(types))
    ensures LookupType(types, types[i].0) == Some(types[i].1)
    decreases i
  {
    if i > 0 {
      var names := Events.SchemaNames(types);
      assert names[0] != names[i];
      assert Events.SchemaNames(types[1..]) == names[1..];
      LookupDistinct(types[1..], i - 1);
    }
  }

  /** Every field of the schema is the one its name looks up: no earlier
      field of the same name hides it. */
  predicate Unshadowed(types: seq<(string, DataType)>) {
    forall i :: 0 <= i < |types| ==> LookupType(types, types[i].0) == Some(types[i].1)
  }

  /** Distinct names hide nothing. */
  lemma DistinctUnshadowed(types: seq<(string, DataType)>)
    requires Distinct(Events.SchemaNames(types))
    ensures Unshadowed(types)
  {
    forall i | 0 <= i < |types|
      ensures LookupType(types, types[i].0) == Some(types[i].1)
    {
      LookupDistinct(types, i);
    }
  }

  /** Every field of a job record is found by its name. */
  lemma EventFieldsUnshadowed()
    ensures Unshadowed(Events.EventFieldTypes)
  {
    EventFieldNamesDistinct();
    DistinctUnshadowed(Events.EventFieldTypes);
  }

  /** The sixteen fields of a job record, in order. */
  lemma EventFieldNames()
    ensures Events.SchemaNames(Events.EventFieldTypes) == [
      "ingestion_batch_id", "org_id", "user_id", "repo_id", "repo_version", "priority",
      "job_id", "job_type", "created_at", "dataset_id", "num_stages", "time",
      "stage", "stage_progress", "errored", "finished"]
  {
  }

  /** The fields of a job record are all named differently: no two agree
      on both length and first letter. */
  lemma EventFieldNamesDistinct()
    ensures Distinct(Events.SchemaNames(Events.EventFieldTypes))
  {
    EventFieldNames();
    var names := Events.SchemaNames(Events.EventFieldTypes);
    assert forall i, j :: 0 <= i < j < |names| ==> |names[i]| != |names[j]| || names[i][0] != names[j][0];
  }

  // ---------------------------------------------------------------------
  // Time-series store

  /** `field_types` of `_write_to_ts`: the declared types, with the creation
      time and the stage count sent as text. */
  function TsColTypes(types: seq<(string, DataType)>): (m: map<string, DataType>)
    ensures m.Keys == (set c | c in Events.SchemaNames(types)) + {"created_at", "num_stages"}
    ensures m["created_at"] == String && m["num_stages"] == String
  {
    var declared := map k | k in Events.SchemaNames(types) :: LookupType(types, k).value;
    declared["created_at" := String]["num_stages" := String]
  }

  /** Every field but the two sent as text keeps its declared type, as long
      as no field hides another. */
  lemma TsColTypesAt(types: seq<(string, DataType)>, i: nat)
    requires i < |types| && Unshadowed(types)
    requires types[i].0 != "created_at" && types[i].0 != "num_stages"
    ensures types[i].0 in TsColTypes(types) && TsColTypes(types)[types[i].0] == types[i].1
  {
    assert Events.SchemaNames(types)[i] == types[i].0;
  }

  /** The measures and dimensions `_write_to_ts` writes, and the time column. */
  const TsMeasures: seq<string> := ["stage", "stage_progress", "errored", "finished"]
  const TsDimensions: seq<string> := [
    "ingestion_batch_id", "org_id", "user_id", "repo_id", "repo_version", "priority",
    "job_id", "job_type", "created_at", "dataset_id", "num_stages"]
  const TsTimeColumn := "time"

  /** The 11 dimensions, the 4 measures and the time column are disjoint
      and together name every field of a job record exactly once. */
  lemma TsColumnsPartition()
    ensures |TsDimensions| == 11 && |TsMeasures| == 4
    ensures forall c :: c in TsDimensions ==> c !in TsMeasures && c != TsTimeColumn
    ensures forall c :: c in TsMeasures ==> c != TsTimeColumn
    ensures (set c | c in TsDimensions + TsMeasures + [TsTimeColumn]) == (set c | c in Events.SchemaNames(Events.EventFieldTypes))
    ensures |Events.SchemaNames(Events.EventFieldTypes)| == 16
  {
    var names := Events.SchemaNames(Events.EventFieldTypes);
    assert names == [
      "ingestion_batch_id", "org_id", "user_id", "repo_id", "repo_version", "priority",
      "job_id", "job_type", "created_at", "dataset_id", "num_stages", "time",
      "stage", "stage_progress", "errored", "finished"];
  }

  /** `event[field] = str(value)` for every field. */
  function Stringify(r: Record): (s: Record)
    ensures |s| == |r|
    ensures forall i :: 0 <= i < |r| ==> s[i] == Field(r[i].key, VStr(Str(r[i].value)))
  {
    seq(|r|, i requires 0 <= i < |r| => Field(r[i].key, VStr(Str(r[i].value))))
  }

  /** Stringifying keeps the keys and their order, makes every value text,
      and is idempotent. */
  lemma StringifyKeepsKeys(r: Record)
    ensures Keys(Stringify(r)) == Keys(r)
    ensures forall i :: 0 <= i < |r| ==> Stringify(r)[i].value.VStr?
    ensures Stringify(Stringify(r)) == Stringify(r)
  {
    var s := Stringify(r);
    assert forall i :: 0 <= i < |r| ==> Keys(s)[i] == Keys(r)[i];
    forall i | 0 <= i < |r|
      ensures Stringify(s)[i] == s[i]
    {
      assert Str(s[i].value) == Str(r[i].value);
    }
  }

  /** The records `_write_to_ts` hands to the time-series writer. */
  function TsRows(events: seq<Record>): (rows: seq<Record>)
    ensures |rows| == |events| && forall i :: 0 <= i < |events| ==> rows[i] == Stringify(events[i])
  {
    seq(|events|, i requires 0 <= i < |events| => Stringify(events[i]))
  }

  /** The time-series store declares a type for exactly the fields of a
      job record, the creation time and the stage count as VARCHAR. */
  lemma TsTypesCover()
    ensures var m := TsColTypes(Events.EventFieldTypes);
      && (forall c :: c in m <==> c in Events.SchemaNames(Events.EventFieldTypes))
      && m["created_at"] == String && m["num_stages"] == String
  {
    Events.EventFieldsAt();
  }

  /** Every other field keeps its declared type there: the time stays a
      TIMESTAMP, the progress an INTEGER, the error flag a BOOLEAN. */
  lemma TsTypesKept()
    ensures var m := TsColTypes(Events.EventFieldTypes);
      && "time" in m && m["time"] == Timestamp
      && "stage_progress" in m && m["stage_progress"] == Integer
      && "errored" in m && m["errored"] == Boolean
  {
    var types := Events.EventFieldTypes;
    Events.EventFieldsAt();
    EventFieldsUnshadowed();
    TsColTypesAt(types, 11);
    TsColTypesAt(types, 13);
    TsColTypesAt(types, 14);
  }

  // ---------------------------------------------------------------------
  // Log store

  /** The fields of `time.localtime()` the stream name uses. */
  datatype LocalTime = LocalTime(year: nat, mon: nat, day: nat, hour: nat, min: nat)

  /** `f"{year}/{mon}/{mday}/{hour}/{min}"`, without zero padding. */
  function StreamName(t: LocalTime): string {
    Text.Join("/", StreamParts(t))
  }

  function StreamParts(t: LocalTime): seq<string> {
    [Text.NatToString(t.year), Text.NatToString(t.mon), Text.NatToString(t.day),
     Text.NatToString(t.hour), Text.NatToString(t.min)]
  }

  /** The stream name splits at its slashes into the five numbers, each
      written without leading zeros, which read back as the clock's fields;
      so different minutes get different streams. */
  lemma StreamNameRoundTrip(t: LocalTime)
    ensures var parts := Text.Split(StreamName(t), '/');
      && parts == StreamParts(t)
      && (forall i :: 0 <= i < 5 ==> Text.AllDigits(parts[i]) && (parts[i][0] == '0' ==> |parts[i]| == 1))
      && Text.DigitsValue(parts[0]) == t.year && Text.DigitsValue(parts[1]) == t.mon
      && Text.DigitsValue(parts[2]) == t.day && Text.DigitsValue(parts[3]) == t.hour
      && Text.DigitsValue(parts[4]) == t.min
  {
    var parts := StreamParts(t);
    StreamPartsRead(t);
    forall i | 0 <= i < 5
      ensures '/' !in parts[i]
    {
      assert forall k :: 0 <= k < |parts[i]| ==> Text.IsDigit(parts[i][k]);
    }
    Text.SplitJoin(parts, '/');
  }

  /** Each of the five parts is the decimal numeral of its clock field. */
  lemma StreamPartsRead(t: LocalTime)
    ensures var parts := StreamParts(t);
      && |parts| == 5
      && (forall i :: 0 <= i < 5 ==> Text.AllDigits(parts[i]) && (parts[i][0] == '0' ==> |parts[i]| == 1))
      && Text.DigitsValue(parts[0]) == t.year && Text.DigitsValue(parts[1]) == t.mon
      && Text.DigitsValue(parts[2]) == t.day && Text.DigitsValue(parts[3]) == t.hour
      && Text.DigitsValue(parts[4]) == t.min
  {
    Text.DigitsValueOfNatToString(t.year);
    Text.DigitsValueOfNatToString(t.mon);
    Text.DigitsValueOfNatToString(t.day);
    Text.DigitsValueOfNatToString(t.hour);
    Text.DigitsValueOfNatToString(t.min);
  }

}
