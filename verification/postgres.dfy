/** The relational store adapter: the text of its `CREATE TABLE`,
    `CREATE INDEX` and `INSERT` statements, and the chunked insert that
    commits each chunk of 500 rows on its own.

    The database is an input: the outcome of executing and committing the
    i-th chunk is `commits(i)`.
 */
module Relational {
  import opened Wrappers
  import opened Records
  import opened Helpers
  import Text

  /** Rows per `INSERT` statement. */
  const BatchSize: nat := 500

  /** One entry of `col_name_and_types`: a column and its SQL type. */
  datatype ColumnDecl = ColumnDecl(name: string, sqlType: string)

  // ---------------------------------------------------------------------
  // CREATE TABLE

  /** The definition `create_table` writes for one column. */
  function ColumnDefinition(c: ColumnDecl, primaryKey: string): string {
    if c.name == primaryKey then c.name + " " + c.sqlType + " PRIMARY KEY"
    else c.name + " " + c.sqlType
  }

  /** `table_cols`: one definition per entry, in order. */
  function ColumnDefinitions(cols: seq<ColumnDecl>, primaryKey: string): (defs: seq<string>)
    ensures |defs| == |cols|
    ensures forall i :: 0 <= i < |cols| ==> defs[i] == ColumnDefinition(cols[i], primaryKey)
  {
    seq(|cols|, i requires 0 <= i < |cols| => ColumnDefinition(cols[i], primaryKey))
  }

  /** `create_table(table, primary_key, col_name_and_types)`. */
  function CreateTableSql(table: string, primaryKey: string, cols: seq<ColumnDecl>): string {
    "\n        CREATE TABLE IF NOT EXISTS " + table + " (\n            "
      + ColumnList(ColumnDefinitions(cols, primaryKey))
      + "\n        )\n        "
  }

  /** `', '.join(parts)`. */
  function ColumnList(parts: seq<string>): string {
    Text.Join(", ", parts)
  }

  /** A column definition read back: its name, its type and whether it is
      marked as the primary key; None for text that is not a definition. */
  function ParseDefinition(def: string): (r: Option<(ColumnDecl, bool)>)
    ensures r.Some? ==> ' ' !in r.value.0.name && ' ' !in r.value.0.sqlType
  {
    var words := Text.Split(def, ' ');
    if |words| == 2 then
      SplitHasNoSeparator(def, ' ');
      Some((ColumnDecl(words[0], words[1]), false))
    else if |words| == 4 && words[2] == "PRIMARY" && words[3] == "KEY" then
      SplitHasNoSeparator(def, ' ');
      Some((ColumnDecl(words[0], words[1]), true))
    else None
  }

  lemma {:induction false} SplitHasNoSeparator(s: string, c: char)
    ensures forall i :: 0 <= i < |Text.Split(s, c)| ==> c !in Text.Split(s, c)[i]
    decreases |s|
  {
    if |s| > 0 {
      SplitHasNoSeparator(s[1..], c);
    }
  }

  /** A definition reads back as its column, marked as the primary key iff
      it is the primary key column, for names and types without spaces. */
  lemma DefinitionRoundTrip(c: ColumnDecl, primaryKey: string)
    requires ' ' !in c.name && ' ' !in c.sqlType
    ensures ParseDefinition(ColumnDefinition(c, primaryKey)) == Some((c, c.name == primaryKey))
  {
    var def := ColumnDefinition(c, primaryKey);
    if c.name == primaryKey {
      var parts := [c.name, c.sqlType, "PRIMARY", "KEY"];
      assert Text.Join(" ", parts[3..]) == "KEY";
      assert Text.Join(" ", parts[2..]) == "PRIMARY KEY";
      assert Text.Join(" ", parts[1..]) == c.sqlType + " PRIMARY KEY";
      assert Text.Join(" ", parts) == def;
      Text.SplitJoin(parts, ' ');
    } else {
      var parts := [c.name, c.sqlType];
      assert Text.Join(" ", parts[1..]) == c.sqlType;
      assert Text.Join(" ", parts) == def;
      Text.SplitJoin(parts, ' ');
    }
  }

  /** The column definitions as the commas of the column list separate them:
      every one after the first keeps the space that follows its comma. */
  function Spaced(parts: seq<string>): (r: seq<string>)
    ensures |r| == |parts|
  {
    seq(|parts|, i requires 0 <= i < |parts| => if i == 0 then parts[i] else " " + parts[i])
  }

  lemma {:induction false} ColumnListSplits(parts: seq<string>)
    requires |parts| > 0
    ensures ColumnList(parts) == Text.Join(",", Spaced(parts))
    decreases |parts|
  {
    if |parts| > 1 {
      ColumnListSplits(parts[1..]);
      var rest := Spaced(parts[1..]);
      var tail := Spaced(parts)[1..];
      assert Text.Join(",", tail) == " " + Text.Join(",", rest) by {
        JoinPrefixFirst(rest, ",", " ");
        assert tail == [" " + rest[0]] + rest[1..];
        var again := Spaced(parts[1..])[1..];
        assert forall i :: 0 <= i < |again| ==> tail[i + 1] == again[i];
      }
    }
  }

  /** Prefixing the first part of a joined list prefixes the joined text. */
  lemma JoinPrefixFirst(parts: seq<string>, sep: string, p: string)
    requires |parts| > 0
    ensures Text.Join(sep, [p + parts[0]] + parts[1..]) == p + Text.Join(sep, parts)
  {
    var q := [p + parts[0]] + parts[1..];
    assert q[1..] == parts[1..];
  }

  /** The column list of a `CREATE TABLE` reads back as its columns in
      order, each marked as the primary key iff it is the primary key
      column, when no name or type holds a space or a comma. */
  lemma ColumnListRoundTrip(cols: seq<ColumnDecl>, primaryKey: string)
    requires |cols| > 0
    requires forall i :: 0 <= i < |cols| ==> ' ' !in cols[i].name && ' ' !in cols[i].sqlType
    requires forall i :: 0 <= i < |cols| ==> ',' !in cols[i].name && ',' !in cols[i].sqlType
    ensures var defs := Text.Split(ColumnList(ColumnDefinitions(cols, primaryKey)), ',');
      && |defs| == |cols|
      && forall i :: 0 <= i < |cols| ==>
           && |defs[i]| >= (if i == 0 then 0 else 1)
           && ParseDefinition(if i == 0 then defs[i] else defs[i][1..]) == Some((cols[i], cols[i].name == primaryKey))
  {
    var defs := ColumnDefinitions(cols, primaryKey);
    ColumnListSplits(defs);
    var spaced := Spaced(defs);
    forall i | 0 <= i < |spaced|
      ensures ',' !in spaced[i]
    {
      assert ',' !in defs[i];
    }
    Text.SplitJoin(spaced, ',');
    forall i | 0 <= i < |cols|
      ensures ParseDefinition(if i == 0 then spaced[i] else spaced[i][1..]) == Some((cols[i], cols[i].name == primaryKey))
    {
      DefinitionRoundTrip(cols[i], primaryKey);
      if i > 0 {
        assert spaced[i][1..] == defs[i];
      }
    }
  }

  /** The `CREATE TABLE` statement reads back: it creates the named table
      only if it is missing, and its parenthesised body splits at the
      commas into one definition per column, in order, each giving the
      column's name, its type and whether it is the primary key. */
  lemma CreateTableReadsBack(table: string, primaryKey: string, cols: seq<ColumnDecl>)
    requires |cols| > 0
    requires forall i :: 0 <= i < |cols| ==> ' ' !in cols[i].name && ' ' !in cols[i].sqlType
    requires forall i :: 0 <= i < |cols| ==> ',' !in cols[i].name && ',' !in cols[i].sqlType
    ensures var sql := CreateTableSql(table, primaryKey, cols);
      var head := "\n        CREATE TABLE IF NOT EXISTS " + table + " (\n            ";
      var foot := "\n        )\n        ";
      && |sql| >= |head| + |foot|
      && sql[..|head|] == head
      && sql[|sql| - |foot|..] == foot
      && var defs := Text.Split(sql[|head|..|sql| - |foot|], ',');
         && |defs| == |cols|
         && forall i :: 0 <= i < |cols| ==>
              && |defs[i]| >= (if i == 0 then 0 else 1)
              && ParseDefinition(if i == 0 then defs[i] else defs[i][1..]) == Some((cols[i], cols[i].name == primaryKey))
  {
    var head := "\n        CREATE TABLE IF NOT EXISTS " + table + " (\n            ";
    var foot := "\n        )\n        ";
    var body := ColumnList(ColumnDefinitions(cols, primaryKey));
    var sql := CreateTableSql(table, primaryKey, cols);
    assert sql == head + body + foot;
    assert sql[..|head|] == head;
    assert sql[|sql| - |foot|..] == foot;
    assert sql[|head|..|sql| - |foot|] == body;
    ColumnListRoundTrip(cols, primaryKey);
  }

  // ---------------------------------------------------------------------
  // CREATE INDEX

  /** `{table}__{column}`. */
  function IndexName(table: string, column: string): string {
    table + "__" + column
  }

  /** `create_index(table, column)`. */
  function CreateIndexSql(table: string, column: string): (sql: string)
    ensures var head := "CREATE INDEX IF NOT EXISTS " + IndexName(table, column) + " ON ";
      |sql| > |head| && sql[..|head|] == head
  {
    var head := "CREATE INDEX IF NOT EXISTS " + IndexName(table, column) + " ON ";
    var sql := head + table + " (" + column + ")";
    assert sql == head + (table + " (" + column + ")");
    sql
  }

  /** The indexes of one table on different columns have different names,
      so creating one never skips another as already existing. */
  lemma IndexNamesDistinct(table: string, c1: string, c2: string)
    ensures IndexName(table, c1) == IndexName(table, c2) <==> c1 == c2
  {
    var p := table + "__";
    if IndexName(table, c1) == IndexName(table, c2) {
      assert c1 == IndexName(table, c1)[|p|..];
      assert c2 == IndexName(table, c2)[|p|..];
    }
  }

  /** Each column gets its own statement: two `CREATE INDEX` statements
      on one table are the same text exactly when their columns are the
      same, and so are the names of the indexes they create. */
  lemma CreateIndexPerColumn(table: string, c1: string, c2: string)
    ensures CreateIndexSql(table, c1) == CreateIndexSql(table, c2) <==> c1 == c2
    ensures IndexName(table, c1) == IndexName(table, c2) <==> c1 == c2
  {
    IndexNamesDistinct(table, c1, c2);
    var head := "CREATE INDEX IF NOT EXISTS " + table + "__";
    var s1 := CreateIndexSql(table, c1);
    var s2 := CreateIndexSql(table, c2);
    assert s1 == head + c1 + (" ON " + table + " (" + c1 + ")");
    assert s2 == head + c2 + (" ON " + table + " (" + c2 + ")");
    if s1 == s2 {
      assert |s1| == |head| + 2 * |c1| + |table| + 7;
      assert |s2| == |head| + 2 * |c2| + |table| + 7;
      assert c1 == s1[|head|..|head| + |c1|];
      assert c2 == s2[|head|..|head| + |c2|];
    }
  }

  // ---------------------------------------------------------------------
  // INSERT

  /** `tuple(row_data.values())`. */
  function RowValues(r: Record): (vs: seq<Value>)
    ensures |vs| == |r| && forall i :: 0 <= i < |r| ==> vs[i] == r[i].value
  {
    seq(|r|, i requires 0 <= i < |r| => r[i].value)
  }

  /** The column list of `_insert_row_batch`: the keys of the last row, or
      none for no rows. */
  function InsertColumns(rows: seq<Record>): seq<string> {
    if |rows| == 0 then [] else Keys(rows[|rows| - 1])
  }

  /** A statement as `execute_values` receives it: the SQL text and one
      value tuple per row. */
  datatype InsertStatement = InsertStatement(sql: string, tuples: seq<seq<Value>>)

  /** The statement `_insert_row_batch(table, rows)` executes. */
  function InsertBatch(table: string, rows: seq<Record>): (st: InsertStatement)
    ensures |st.tuples| == |rows|
    ensures forall i :: 0 <= i < |rows| ==> st.tuples[i] == RowValues(rows[i])
  {
    InsertStatement("INSERT INTO " + table + " (" + Text.Join(",", InsertColumns(rows)) + ") VALUES %s",
                    seq(|rows|, i requires 0 <= i < |rows| => RowValues(rows[i])))
  }

  /** When all rows have the keys of the last row, in the same order and
      without repeats, every tuple lines up with the column list: its j-th
      value is the row's value for the j-th column. */
  lemma InsertAligned(table: string, rows: seq<Record>)
    requires |rows| > 0
    requires forall i :: 0 <= i < |rows| ==> Keys(rows[i]) == Keys(rows[|rows| - 1])
    requires UniqueKeys(rows[|rows| - 1])
    ensures var st := InsertBatch(table, rows); var cols := InsertColumns(rows);
      forall i, j :: 0 <= i < |rows| && 0 <= j < |cols| ==>
        j < |st.tuples[i]| && Get(rows[i], cols[j]) == Some(st.tuples[i][j])
  {
    var cols := InsertColumns(rows);
    forall i, j | 0 <= i < |rows| && 0 <= j < |cols|
      ensures Get(rows[i], cols[j]) == Some(rows[i][j].value)
    {
      assert Keys(rows[i])[j] == cols[j];
      assert forall k :: 0 <= k < j ==> Keys(rows[i])[k] == cols[k];
      GetAt(rows[i], j, cols[j]);
    }
  }

  /** The `INSERT` statement names the last row's columns in order: the
      text between "INSERT INTO <table> (" and ") VALUES %s" splits at its
      commas into exactly those columns, when no column name holds a comma. */
  lemma InsertSqlReadsBack(table: string, rows: seq<Record>)
    requires |rows| > 0 && |rows[|rows| - 1]| > 0
    requires forall k :: k in InsertColumns(rows) ==> ',' !in k
    ensures var sql := InsertBatch(table, rows).sql;
      var head := "INSERT INTO " + table + " (";
      var foot := ") VALUES %s";
      && |sql| >= |head| + |foot|
      && sql[..|head|] == head
      && sql[|sql| - |foot|..] == foot
      && Text.Split(sql[|head|..|sql| - |foot|], ',') == InsertColumns(rows)
  {
    var head := "INSERT INTO " + table + " (";
    var foot := ") VALUES %s";
    var body := Text.Join(",", InsertColumns(rows));
    var sql := InsertBatch(table, rows).sql;
    assert sql == head + body + foot;
    assert sql[..|head|] == head;
    assert sql[|sql| - |foot|..] == foot;
    assert sql[|head|..|sql| - |foot|] == body;
    InsertColumnsRoundTrip(rows);
  }

  /** The column list is written so that splitting it at its commas gives
      the columns back, when no column name holds a comma. */
  lemma InsertColumnsRoundTrip(rows: seq<Record>)
    requires |rows| > 0 && |rows[|rows| - 1]| > 0
    requires forall k :: k in InsertColumns(rows) ==> ',' !in k
    ensures Text.Split(Text.Join(",", InsertColumns(rows)), ',') == InsertColumns(rows)
  {
    Text.SplitJoin(InsertColumns(rows), ',');
  }

  function InsertScope(n: nat): Scope {
    Scope("rds", "basic_write", Some(n), None)
  }

  /** What `insert_rows` did: how it ended, the chunks the database
      committed, in order (chunk `c` as the statement `InsertBatch(table, c)`),
      and the timing samples after it. */
  datatype InsertOutcome = InsertOutcome(result: Result<()>, committed: seq<seq<Record>>, samples: seq<Scope>)

  /** The chunks from the k-th on, one `_insert_row_batch` each; the first
      failure ends the loop. */
  function InsertBatches(table: string, batches: seq<seq<Record>>, commits: nat -> Result<()>, k: nat, samples: seq<Scope>): (o: InsertOutcome)
    requires k <= |batches|
    decreases |batches| - k
  {
    if k == |batches| then InsertOutcome(Ok(()), [], samples)
    else
      var r := commits(k);
      var samples' := Timed(samples, InsertScope(|batches[k]|), r);
      if r.Err? then InsertOutcome(r, [], samples')
      else
        var rest := InsertBatches(table, batches, commits, k + 1, samples');
        InsertOutcome(rest.result, [batches[k]] + rest.committed, rest.samples)
  }

  /** `insert_rows(table, rows)`. */
  function InsertRows(table: string, rows: seq<Record>, commits: nat -> Result<()>, samples: seq<Scope>): InsertOutcome {
    InsertBatches(table, Batches(rows, BatchSize), commits, 0, samples)
  }

  /** The first chunk, from the k-th on, that fails, if any. */
  function FirstFailure(commits: nat -> Result<()>, k: nat, n: nat): (f: nat)
    requires k <= n
    ensures k <= f <= n
    ensures forall j :: k <= j < f ==> commits(j).Ok?
    ensures f < n ==> commits(f).Err?
    decreases n - k
  {
    if k == n || commits(k).Err? then k else FirstFailure(commits, k + 1, n)
  }

  /** The timing samples of chunks k .. f-1. */
  function Scopes(batches: seq<seq<Record>>, k: nat, f: nat): (scs: seq<Scope>)
    requires k <= f <= |batches|
    ensures |scs| == f - k
    ensures forall j :: 0 <= j < f - k ==> scs[j] == InsertScope(|batches[k + j]|)
  {
    seq(f - k, j requires 0 <= j < f - k => InsertScope(|batches[k + j]|))
  }

  /** The loop commits exactly the chunks before the first failure, in
      order, each with a sample of its own size, and then reports that
      failure; the chunks after it are never sent. */
  lemma {:induction false} InsertBatchesCommitPrefix(table: string, batches: seq<seq<Record>>, commits: nat -> Result<()>,
                                                    k: nat, samples: seq<Scope>)
    requires k <= |batches|
    ensures var o := InsertBatches(table, batches, commits, k, samples);
      var f := FirstFailure(commits, k, |batches|);
      && o.committed == batches[k..f]
      && o.samples == samples + Scopes(batches, k, f)
    decreases |batches| - k
  {
    var f := FirstFailure(commits, k, |batches|);
    if k < |batches| && commits(k).Ok? {
      var samples' := samples + [InsertScope(|batches[k]|)];
      InsertBatchesCommitPrefix(table, batches, commits, k + 1, samples');
      assert batches[k..f] == [batches[k]] + batches[k + 1..f];
      assert Scopes(batches, k, f) == [InsertScope(|batches[k]|)] + Scopes(batches, k + 1, f);
    } else {
      assert Scopes(batches, k, f) == [];
    }
  }

  /** The loop reports the failure of the first chunk that fails, and
      succeeds iff none does. */
  lemma {:induction false} InsertBatchesResult(table: string, batches: seq<seq<Record>>, commits: nat -> Result<()>,
                                              k: nat, samples: seq<Scope>)
    requires k <= |batches|
    ensures var o := InsertBatches(table, batches, commits, k, samples);
      var f := FirstFailure(commits, k, |batches|);
      && (f == |batches| <==> o.result.Ok?)
      && (f < |batches| ==> o.result == commits(f))
    decreases |batches| - k
  {
    if k < |batches| && commits(k).Ok? {
      InsertBatchesResult(table, batches, commits, k + 1, Timed(samples, InsertScope(|batches[k]|), commits(k)));
    }
  }

  /** Committed chunks stay committed: when chunk f is the first to fail,
      the rows of the chunks before it, exactly the first `500 * f` rows,
      are in the table, and no other row is. */
  lemma InsertRowsPartial(table: string, rows: seq<Record>, commits: nat -> Result<()>, samples: seq<Scope>)
    ensures var o := InsertRows(table, rows, commits, samples);
      var batches := Batches(rows, BatchSize);
      var f := FirstFailure(commits, 0, |batches|);
      && o.committed == batches[..f]
      && Concat(batches[..f]) == rows[..Min(BatchSize * f, |rows|)]
      && (o.result.Ok? <==> f == |batches|)
      && (o.result.Err? ==> o.result == commits(f))
  {
    var batches := Batches(rows, BatchSize);
    InsertBatchesCommitPrefix(table, batches, commits, 0, samples);
    InsertBatchesResult(table, batches, commits, 0, samples);
    var f := FirstFailure(commits, 0, |batches|);
    BatchesPrefix(rows, BatchSize, f);
  }

  /** The first k chunks hold the first `n * k` items. */
  lemma BatchesPrefix<T>(xs: seq<T>, n: nat, k: nat)
    requires n > 0 && k <= |Batches(xs, n)|
    ensures Concat(Batches(xs, n)[..k]) == xs[..Min(n * k, |xs|)]
  {
    SlicesPrefix(xs, n, 0, k);
  }

  lemma {:induction false} SlicesPrefix<T>(xs: seq<T>, n: nat, start: nat, k: nat)
    requires n > 0 && k <= |Slices(xs, n, start)|
    ensures Concat(Slices(xs, n, start)[..k]) == xs[Min(start, |xs|)..Min(start + n * k, |xs|)]
    decreases |xs| - start
  {
    var ss := Slices(xs, n, start);
    if k > 0 {
      SlicesPrefix(xs, n, start + n, k - 1);
      var rest := Slices(xs, n, start + n);
      assert ss[..k] == [ss[0]] + rest[..k - 1];
      ConcatCons(ss[0], rest[..k - 1]);
      assert start + n * k == start + n + n * (k - 1);
      var a := start;
      var b := Min(start + n, |xs|);
      var c := Min(start + n * k, |xs|);
      assert Min(start + n, |xs|) == b;
      assert xs[a..b] + xs[b..c] == xs[a..c];
    } else {
      assert ss[..0] == [];
    }
  }
}
