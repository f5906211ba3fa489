/** src/helpers.py: the batch splitter, the shared field-type enumeration
    and the timing instrument.
 */
module Helpers {
  import opened Wrappers
  import Text
  import opened Records

  function Min(a: int, b: int): int {
    if a <= b then a else b
  }

  function Max(a: int, b: int): int {
    if a >= b then a else b
  }

  /** The concatenation of a list of lists. */
  function Concat<T>(xss: seq<seq<T>>): seq<T>
    decreases |xss|
  {
    if |xss| == 0 then [] else xss[0] + Concat(xss[1..])
  }

  lemma ConcatCons<T>(xs: seq<T>, xss: seq<seq<T>>)
    ensures Concat([xs] + xss) == xs + Concat(xss)
  {
    assert ([xs] + xss)[1..] == xss;
  }

  /** Appending the `k`-th part and then the concatenation of the parts
      after it appends the concatenation from the `k`-th part on. */
  lemma ConcatFrom<T>(acc: seq<T>, xss: seq<seq<T>>, k: nat)
    requires k < |xss|
    ensures acc + xss[k] + Concat(xss[k + 1..]) == acc + Concat(xss[k..])
  {
    assert xss[k..] == [xss[k]] + xss[k + 1..];
    ConcatCons(xss[k], xss[k + 1..]);
  }

  lemma {:induction false} ConcatAppend<T>(xss: seq<seq<T>>, yss: seq<seq<T>>)
    ensures Concat(xss + yss) == Concat(xss) + Concat(yss)
    decreases |xss|
  {
    if |xss| == 0 {
      assert xss + yss == yss;
    } else {
      ConcatAppend(xss[1..], yss);
      calc {
        Concat(xss + yss);
        { ConcatCons(xss[0], xss[1..] + yss); assert xss + yss == [xss[0]] + (xss[1..] + yss); }
        xss[0] + Concat(xss[1..] + yss);
        xss[0] + Concat(xss[1..]) + Concat(yss);
      }
    }
  }

  /** No item twice. */
  predicate Distinct<T(==)>(xs: seq<T>) {
    forall i, j :: 0 <= i < j < |xs| ==> xs[i] != xs[j]
  }

  /** The slices `xs[i:i+n]` for `i` in `range(start, len(xs), n)`. */
  function Slices<T>(xs: seq<T>, n: nat, start: nat): seq<seq<T>>
    requires n > 0
    decreases |xs| - start
  {
    if start >= |xs| then []
    else [xs[start..Min(start + n, |xs|)]] + Slices(xs, n, start + n)
  }

  /** `create_batches_from_list(xs, n)` for a positive batch size. */
  function Batches<T>(xs: seq<T>, n: nat): seq<seq<T>>
    requires n > 0
  {
    Slices(xs, n, 0)
  }

  /** `create_batches_from_list` for any batch size: `range` rejects a zero
      step, and a negative step gives no slices. */
  function CreateBatchesFromList<T>(xs: seq<T>, n: int): (r: Result<seq<seq<T>>>)
    ensures r.Err? <==> n == 0
    ensures n < 0 ==> r == Ok([])
    ensures n > 0 ==> r.Ok? && Concat(r.value) == xs && WellChunked(r.value, n)
  {
    if n == 0 then Err(ValueError("range() arg 3 must not be zero"))
    else if n < 0 then Ok([])
    else
      BatchesConcat(xs, n);
      BatchesShape(xs, n);
      Ok(Batches(xs, n))
  }

  /** Every chunk but the last holds exactly `n` items; the last holds
      between 1 and `n`. */
  ghost predicate WellChunked<T>(cs: seq<seq<T>>, n: nat) {
    && (forall j :: 0 <= j < |cs| - 1 ==> |cs[j]| == n)
    && (|cs| > 0 ==> 0 < |cs[|cs| - 1]| <= n)
  }

  lemma {:induction false} SlicesConcat<T>(xs: seq<T>, n: nat, start: nat)
    requires n > 0 && start <= |xs|
    ensures Concat(Slices(xs, n, start)) == xs[start..]
    decreases |xs| - start
  {
    if start < |xs| {
      var m := Min(start + n, |xs|);
      ConcatCons(xs[start..m], Slices(xs, n, start + n));
      if start + n <= |xs| {
        SlicesConcat(xs, n, start + n);
        assert xs[start..m] + xs[start + n..] == xs[start..];
      } else {
        assert Slices(xs, n, start + n) == [];
      }
    }
  }

  /** Concatenating the chunks gives back the input exactly. */
  lemma BatchesConcat<T>(xs: seq<T>, n: nat)
    requires n > 0
    ensures Concat(Batches(xs, n)) == xs
  {
    SlicesConcat(xs, n, 0);
  }

  lemma {:induction false} SlicesShape<T>(xs: seq<T>, n: nat, start: nat)
    requires n > 0
    ensures WellChunked(Slices(xs, n, start), n)
    decreases |xs| - start
  {
    if start < |xs| {
      SlicesShape(xs, n, start + n);
    }
  }

  /** Full chunks, then one non-empty chunk of at most `n`; no chunks for no items. */
  lemma BatchesShape<T>(xs: seq<T>, n: nat)
    requires n > 0
    ensures WellChunked(Batches(xs, n), n)
    ensures |xs| == 0 <==> Batches(xs, n) == []
  {
    SlicesShape(xs, n, 0);
  }

  lemma {:induction false} SlicesCount<T>(xs: seq<T>, n: nat, start: nat)
    requires n > 0 && start <= |xs|
    ensures |Slices(xs, n, start)| == (|xs| - start + n - 1) / n
    decreases |xs| - start
  {
    if start < |xs| {
      if start + n <= |xs| {
        SlicesCount(xs, n, start + n);
        DivShift(|xs| - start - n + n - 1, n);
      } else {
        DivOne(|xs| - start + n - 1, n);
      }
    }
  }

  lemma DivOne(a: int, n: int)
    requires n > 0 && n <= a < 2 * n
    ensures a / n == 1
  {
  }

  lemma DivShift(a: int, n: int)
    requires a >= 0 && n > 0
    ensures (a + n) / n == a / n + 1
  {
    var q, r := (a + n) / n, (a + n) % n;
    var q0, r0 := a / n, a % n;
    assert a + n == q * n + r && a == q0 * n + r0;
    var k := q - q0 - 1;
    assert k * n == r0 - r by {
      assert q * n == (q0 + 1 + k) * n == q0 * n + n + k * n;
    }
  }

  lemma MulNonNeg(a: int, b: int)
    requires a >= 0 && b >= 0
    ensures a * b >= 0
  {
  }

  /** Quotient and remainder are determined by any decomposition `x == q * n + r` with `0 <= r < n`. */
  lemma DivUnique(x: int, n: int, q: int, r: int)
    requires n > 0 && 0 <= r < n && x == q * n + r
    ensures x / n == q && x % n == r
  {
    var d := q - x / n;
    if d >= 1 {
      MulNonNeg(d - 1, n);
    } else if d <= -1 {
      MulNonNeg(-d - 1, n);
    }
  }

  /** How the remainder moves from `i` to `i + 1`. */
  lemma ModStep(i: nat, n: nat)
    requires n > 0
    ensures (i + 1) % n == 0 <==> i % n == n - 1
    ensures (i + 1) % n != 0 ==> (i + 1) % n == i % n + 1
  {
    if i % n + 1 == n {
      DivUnique(i + 1, n, i / n + 1, 0);
    } else {
      DivUnique(i + 1, n, i / n, i % n + 1);
    }
  }

  /** The number of chunks is the ceiling of `len(xs) / n`. */
  lemma BatchesCount<T>(xs: seq<T>, n: nat)
    requires n > 0
    ensures |Batches(xs, n)| == (|xs| + n - 1) / n
  {
    SlicesCount(xs, n, 0);
  }

  lemma {:induction false} SlicesUnique<T>(cs: seq<seq<T>>, xs: seq<T>, n: nat, start: nat)
    requires n > 0 && start <= |xs|
    requires Concat(cs) == xs[start..]
    requires WellChunked(cs, n)
    ensures cs == Slices(xs, n, start)
    decreases |cs|
  {
    if |cs| == 0 {
      assert |xs[start..]| == 0;
    } else {
      ConcatCons(cs[0], cs[1..]);
      assert [cs[0]] + cs[1..] == cs;
      if |cs| == 1 {
        assert Concat(cs[1..]) == [];
        assert cs[0] == xs[start..];
        assert |xs| - start <= n;
        assert xs[start..Min(start + n, |xs|)] == xs[start..];
        assert Slices(xs, n, start + n) == [];
      } else {
        var last := cs[|cs| - 1];
        assert cs[1..][|cs| - 2] == last;
        ConcatAppend(cs[1..][..|cs| - 2], [last]);
        assert cs[1..][..|cs| - 2] + [last] == cs[1..];
        ConcatCons(last, []);
        assert |Concat(cs[1..])| > 0;
        assert cs[0] == xs[start..start + n];
        assert Concat(cs[1..]) == xs[start + n..];
        SlicesUnique(cs[1..], xs, n, start + n);
      }
    }
  }

  /** Any split with the batch shape whose concatenation is the input is the
      one `create_batches_from_list` returns. */
  lemma BatchesUnique<T>(cs: seq<seq<T>>, xs: seq<T>, n: nat)
    requires n > 0
    requires Concat(cs) == xs
    requires WellChunked(cs, n)
    ensures cs == Batches(xs, n)
  {
    SlicesUnique(cs, xs, n, 0);
  }

  /** The field types of the shared record schema; each prints as its SQL
      type name. */
  datatype DataType = String | Integer | Double | Boolean | Timestamp {

    /** `str(DataType.X)`, the enum member's value. */
    function Name(): string {
      match this
      case String => "VARCHAR"
      case Integer => "BIGINT"
      case Double => "DOUBLE"
      case Boolean => "BOOLEAN"
      case Timestamp => "TIMESTAMP"
    }
  }

  /** `DataType(name)`: the member whose value is `name`. */
  function DataTypeFromName(name: string): Option<DataType> {
    if name == "VARCHAR" then Some(String)
    else if name == "BIGINT" then Some(Integer)
    else if name == "DOUBLE" then Some(Double)
    else if name == "BOOLEAN" then Some(Boolean)
    else if name == "TIMESTAMP" then Some(Timestamp)
    else None
  }

  /** Each member's printed name is its value, and the value identifies it. */
  lemma DataTypeNameRoundTrip(t: DataType)
    ensures DataTypeFromName(t.Name()) == Some(t)
    ensures forall u: DataType :: u.Name() == t.Name() ==> u == t
  {
  }

  /** What one timed operation is about: the constructor's arguments. */
  datatype Scope = Scope(dataStore: string, operation: string, numRecords: Option<int>, isFirstQuery: Option<bool>)

  /** One row of the metrics table. */
  datatype DurationItem = DurationItem(
    recordId: string,
    dataStore: string,
    operation: string,
    execTime: int,
    numRecords: Option<int>,
    isFirstQuery: Option<bool>)
  {
    /** The keys of the dictionary written for this row, in insertion order. */
    function Keys(): seq<string> {
      ["record_id", "data_store", "operation", "exec_time"]
      + (if numRecords.Some? then ["num_records"] else [])
      + (if isFirstQuery.Some? then ["is_first_query"] else [])
    }
  }

  /** The item `timed_operation.__exit__` puts to the metrics table, if any:
      `createdAt` is the clock reading taken by the constructor (the record
      id), `enteredAt` and `exitedAt` those of `__enter__` and `__exit__`. */
  function ExitScope(scope: Scope, createdAt: int, enteredAt: int, exitedAt: int, raised: bool): (item: Option<DurationItem>)
    ensures raised <==> item.None?
  {
    if raised then None
    else Some(DurationItem(Text.IntToString(createdAt), scope.dataStore, scope.operation,
                           exitedAt - enteredAt, scope.numRecords, scope.isFirstQuery))
  }

  /** A normal exit writes one row carrying the constructor's store and
      operation, the elapsed time between enter and exit, and the optional
      keys exactly when their arguments were not None. */
  lemma ExitScopeItem(scope: Scope, createdAt: int, enteredAt: int, exitedAt: int)
    ensures var item := ExitScope(scope, createdAt, enteredAt, exitedAt, false).value;
      && item.execTime == exitedAt - enteredAt
      && item.dataStore == scope.dataStore
      && item.operation == scope.operation
      && Text.ParseInt(item.recordId) == Ok(createdAt)
      && ("num_records" in item.Keys() <==> scope.numRecords.Some?)
      && ("is_first_query" in item.Keys() <==> scope.isFirstQuery.Some?)
  {
    Text.IntToStringRoundTrip(createdAt);
    var item := ExitScope(scope, createdAt, enteredAt, exitedAt, false).value;
    var ks := item.Keys();
    if scope.numRecords.Some? {
      assert ks[4] == "num_records";
    }
    if scope.isFirstQuery.Some? {
      assert ks[|ks| - 1] == "is_first_query";
    }
  }

  /** The metrics sink after a timed scope whose body produced `r`: the
      scope is appended iff the body did not raise. */
  function Timed<T>(samples: seq<Scope>, scope: Scope, r: Result<T>): (samples': seq<Scope>)
    ensures r.Err? ==> samples' == samples
    ensures r.Ok? ==> samples' == samples + [scope]
  {
    if r.Ok? then samples + [scope] else samples
  }

  /** The model's samples and the metrics rows agree: a timed scope adds a
      sample exactly when `__exit__` writes a row, keeps the earlier
      samples, and the sample it adds names the row's store and operation. */
  lemma TimedRecordsExit<T>(samples: seq<Scope>, scope: Scope, r: Result<T>, createdAt: int, enteredAt: int, exitedAt: int)
    ensures var s' := Timed(samples, scope, r);
      var item := ExitScope(scope, createdAt, enteredAt, exitedAt, r.Err?);
      && |s'| >= |samples| && s'[..|samples|] == samples
      && (item.Some? <==> |s'| == |samples| + 1)
      && (item.None? <==> s' == samples)
      && (item.Some? ==> s'[|samples|].dataStore == item.value.dataStore && s'[|samples|].operation == item.value.operation
                         && s'[|samples|].numRecords == item.value.numRecords && s'[|samples|].isFirstQuery == item.value.isFirstQuery)
  {
  }
}
