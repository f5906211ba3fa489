/** src/es.py: the search-store adapter — the bulk writer with its 413
    bisection and 429/504 back-off, the response check, and the scroll loop.

    Every HTTP exchange is an oracle `nat -> Response` indexed by the
    position of the request among all requests the operation makes, so a
    run is determined by its arguments and the oracle. A request's payload
    is the line range `[start, end)` it sends; `time.sleep` calls are
    returned as the list of their delays.
 */
module SearchStore {
  import opened Wrappers
  import opened Records
  import opened Helpers

  const PayloadTooLarge: int := 413
  const TooManyRequests: int := 429
  const GatewayTimeout: int := 504
  /** The back-off above which a throttled bulk request is no longer retried. */
  const MaxBackoff: nat := 60
  /** The pause `_check_response` takes after a gateway timeout. */
  const TimeoutPause: nat := 10

  /** The "error" entry of a response: missing, a dictionary, or some other value. */
  datatype ErrorField = NoErrorField | ErrorDict(info: ErrorInfo) | ErrorNotDict

  /** A decoded response body, restricted to the keys the adapter reads:
      "error", "errors" (only whether it `is True`), "items" (each item's
      "error", None when absent), "hits"."hits" and "_scroll_id". */
  datatype Body =
    | NotJson
    | Null
    | Data(error: ErrorField,
           errorsTrue: bool,
           items: Option<seq<Option<ErrorInfo>>>,
           hits: Option<seq<Record>>,
           scrollId: Option<string>)

  datatype Response = Response(status: int, body: Body)

  /** `error.get("type") in ignored_errors`; a missing type is never ignored. */
  predicate Ignored(e: ErrorInfo, ignored: set<string>) {
    e.kind.Some? && e.kind.value in ignored
  }

  /** An error dictionary that `_check_response` reports: not ignored, and truthy. */
  predicate Reported(e: ErrorInfo, ignored: set<string>) {
    !Ignored(e, ignored) && e.NonEmpty()
  }

  /** The loop over "items" of a response with `errors: true`. An item
      without an "error" raises AttributeError, because its type is read
      before its truthiness is checked. */
  function ItemErrors(items: seq<Option<ErrorInfo>>, ignored: set<string>): (r: Result<seq<ErrorInfo>>)
    ensures r.Err? <==> exists i :: 0 <= i < |items| && items[i].None?
    ensures r.Err? ==> r.error.AttributeError?
    ensures r.Ok? ==> forall e :: e in r.value <==>
      (Some(e) in items && Reported(e, ignored))
    decreases |items|
  {
    if |items| == 0 then Ok([])
    else match items[0]
      case None => Err(AttributeError("'NoneType' object has no attribute 'get'"))
      case Some(e) =>
        var rest := ItemErrors(items[1..], ignored);
        assert forall i :: 0 < i < |items| ==> items[i] == items[1..][i - 1];
        assert forall x :: x in items <==> x == items[0] || x in items[1..];
        if rest.Err? then Err(rest.error)
        else Ok(if Reported(e, ignored) then [e] + rest.value else rest.value)
  }

  /** `_check_response(response, name, ignored_errors)`: the decoded body,
      unless the body is not JSON (ValueError), or the reported errors are
      not empty (SearchError), or reading the items fails. */
  function CheckResponse(resp: Response, ignored: set<string>): (r: Result<Body>)
    ensures r.Ok? ==> r.value == resp.body
    ensures r.Err? && resp.body.Data? && !resp.body.errorsTrue ==>
      resp.body.error.ErrorDict? && r.error == SearchError(Some(resp.body.error.info), [])
  {
    match resp.body
    case NotJson => Err(ValueError("Expecting value"))
    case Null => Ok(Null)
    case Data(error, errorsTrue, items, _, _) =>
      var hasError := error.ErrorDict?;
      if (resp.status != 200 && resp.status != 201) || hasError || errorsTrue then
        if errorsTrue then
          if items.None? then Err(TypeError("'NoneType' object is not iterable"))
          else
            var errs :- ItemErrors(items.value, ignored);
            if |errs| > 0 then Err(SearchError(None, errs)) else Ok(resp.body)
        else if hasError && Reported(error.info, ignored) then
          Err(SearchError(Some(error.info), []))
        else Ok(resp.body)
      else Ok(resp.body)
  }

  /** The pauses `_check_response` takes: 10 seconds after a gateway
      timeout whose body decodes. */
  function CheckPause(resp: Response): (pauses: seq<nat>)
    ensures pauses == [TimeoutPause] <==> resp.status == GatewayTimeout && !resp.body.NotJson?
    ensures pauses == [] <==> !(resp.status == GatewayTimeout && !resp.body.NotJson?)
  {
    if resp.body.NotJson? then []
    else if resp.status == GatewayTimeout then [TimeoutPause]
    else []
  }

  /** When a decoded body makes `_check_response` raise, stated without its
      control flow: with `errors: true`, when the items are missing or one of
      them lacks an error or carries a reported one; otherwise when the
      single error is a reported dictionary. */
  ghost predicate Fails(d: Body, ignored: set<string>)
    requires d.Data?
  {
    if d.errorsTrue then
      d.items.None? ||
      exists i :: 0 <= i < |d.items.value| &&
        (d.items.value[i].None? || Reported(d.items.value[i].value, ignored))
    else d.error.ErrorDict? && Reported(d.error.info, ignored)
  }

  /** `_check_response` raises iff the body is not JSON or the filtered
      error data is not empty; the status code plays no part, so a failed
      status without an error payload passes. */
  lemma CheckResponseRaises(resp: Response, ignored: set<string>)
    ensures CheckResponse(resp, ignored).Err? <==>
      resp.body.NotJson? || (resp.body.Data? && Fails(resp.body, ignored))
    ensures resp.body.Null? ==> CheckResponse(resp, ignored) == Ok(Null)
  {
    if resp.body.Data? && resp.body.errorsTrue && resp.body.items.Some? {
      var items := resp.body.items.value;
      var r := ItemErrors(items, ignored);
      if r.Ok? && |r.value| > 0 {
        var e := r.value[0];
        assert Some(e) in items;
        var i :| 0 <= i < |items| && items[i] == Some(e);
      }
      if r.Ok? && Fails(resp.body, ignored) {
        var i :| 0 <= i < |items| && (items[i].None? || Reported(items[i].value, ignored));
        assert items[i].value in r.value;
      }
    }
  }

  /** An error whose type is in `ignored_errors` never makes the check raise. */
  lemma IgnoredErrorPasses(status: int, e: ErrorInfo, ignored: set<string>, hits: Option<seq<Record>>, sid: Option<string>)
    requires Ignored(e, ignored)
    ensures CheckResponse(Response(status, Data(ErrorDict(e), false, None, hits, sid)), ignored).Ok?
  {
  }

  /** A bulk response with `errors: true` raises with exactly the item
      errors that are not ignored, in item order, when every item has one. */
  lemma ItemErrorsReported(status: int, items: seq<ErrorInfo>, ignored: set<string>)
    requires forall i :: 0 <= i < |items| ==> Reported(items[i], ignored)
    requires |items| > 0
    ensures var some := seq(|items|, i requires 0 <= i < |items| => Some(items[i]));
      CheckResponse(Response(status, Data(NoErrorField, true, Some(some), None, None)), ignored)
        == Err(SearchError(None, items))
  {
    var some := seq(|items|, i requires 0 <= i < |items| => Some(items[i]));
    ItemErrorsAllReported(some, items, ignored);
  }

  lemma {:induction false} ItemErrorsAllReported(some: seq<Option<ErrorInfo>>, items: seq<ErrorInfo>, ignored: set<string>)
    requires |some| == |items|
    requires forall i :: 0 <= i < |items| ==> some[i] == Some(items[i]) && Reported(items[i], ignored)
    ensures ItemErrors(some, ignored) == Ok(items)
    decreases |items|
  {
    if |items| > 0 {
      ItemErrorsAllReported(some[1..], items[1..], ignored);
      assert [items[0]] + items[1..] == items;
    }
  }

  // ---------------------------------------------------------------------
  // Bulk writing

  /** One line of a bulk request: an action (the `_type` is always "_doc")
      or the document it applies to. */
  datatype Line = Action(index: string, id: Option<string>) | DocLine(doc: Record)

  /** `action_item(i)`: the id is sent only when ids were given for every document. */
  function ActionItem(index: string, docs: seq<Record>, docIds: Option<seq<string>>, i: nat): (a: Line)
    requires i < |docs|
    ensures a.Action? && a.index == index
    ensures a.id.Some? <==> docIds.Some? && |docIds.value| == |docs|
  {
    if docIds.Some? && |docIds.value| == |docs| then Action(index, Some(docIds.value[i]))
    else Action(index, None)
  }

  /** The lines of the first `k` documents: for each, its action line and
      then its document line, in input order. */
  function PairLines(index: string, docs: seq<Record>, docIds: Option<seq<string>>, k: nat): (lines: seq<Line>)
    requires k <= |docs|
    ensures |lines| == 2 * k
    decreases k
  {
    if k == 0 then []
    else PairLines(index, docs, docIds, k - 1) + [ActionItem(index, docs, docIds, k - 1), DocLine(docs[k - 1])]
  }

  function Abs(n: int): nat {
    if n < 0 then -n else n
  }

  /** The batches of lines `index_documents_in_bulk` builds: `batch_size`
      documents, so twice as many lines, per batch. A zero batch size
      fails on the first document; a negative one divides like its
      magnitude, since `(i + 1) % batch_size == 0` only tests divisibility. */
  function BulkLineBatches(index: string, docs: seq<Record>, docIds: Option<seq<string>>, batchSize: int): Result<seq<seq<Line>>> {
    if |docs| == 0 then Ok([])
    else if batchSize == 0 then Err(ZeroDivisionError)
    else Ok(Batches(PairLines(index, docs, docIds, |docs|), 2 * Abs(batchSize)))
  }

  /** Each document contributes its action line immediately followed by
      its document line, in input order. */
  lemma {:induction false} PairLinesPairs(index: string, docs: seq<Record>, docIds: Option<seq<string>>, k: nat)
    requires k <= |docs|
    ensures forall i :: 0 <= i < k ==>
      PairLines(index, docs, docIds, k)[2 * i] == ActionItem(index, docs, docIds, i)
      && PairLines(index, docs, docIds, k)[2 * i + 1] == DocLine(docs[i])
    decreases k
  {
    if k > 0 {
      PairLinesPairs(index, docs, docIds, k - 1);
    }
  }

  lemma PairLinesStep(index: string, docs: seq<Record>, docIds: Option<seq<string>>, i: nat)
    requires i < |docs|
    ensures PairLines(index, docs, docIds, i + 1)
      == PairLines(index, docs, docIds, i) + [ActionItem(index, docs, docIds, i), DocLine(docs[i])]
  {
  }

  lemma AppendAssoc<T>(a: seq<T>, b: seq<T>, c: seq<T>)
    ensures a + (b + c) == (a + b) + c
  {
  }

  /** Every chunk holds exactly `n` items. */
  ghost predicate FullChunks<T>(cs: seq<seq<T>>, n: nat) {
    forall j :: 0 <= j < |cs| ==> |cs[j]| == n
  }

  /** Closing a batch of at most `n` lines after full ones keeps the
      batches well chunked and their concatenation; a batch of exactly `n`
      keeps them all full. */
  lemma CloseBatch<T>(batches: seq<seq<T>>, actions: seq<T>, n: nat)
    requires FullChunks(batches, n)
    requires 0 < |actions| <= n
    ensures WellChunked(batches + [actions], n)
    ensures |actions| == n ==> FullChunks(batches + [actions], n)
    ensures Concat(batches + [actions]) == Concat(batches) + actions
  {
    ConcatAppend(batches, [actions]);
    ConcatCons(actions, []);
  }

  /** The loop of `index_documents_in_bulk` that appends each document's
      two lines and closes a batch after every `batch_size`-th document and
      after the last one. */
  method CollectBulkBatches(index: string, docs: seq<Record>, docIds: Option<seq<string>>, batchSize: int)
    returns (r: Result<seq<seq<Line>>>)
    ensures r == BulkLineBatches(index, docs, docIds, batchSize)
  {
    if batchSize == 0 {
      // the modulus is evaluated only inside the loop body
      if |docs| > 0 {
        return Err(ZeroDivisionError);
      }
      return Ok([]);
    }
    var n := Abs(batchSize);
    var batches: seq<seq<Line>> := [];
    var actions: seq<Line> := [];
    ghost var pending: nat := 0;
    var i := 0;
    while i < |docs|
      invariant 0 <= i <= |docs|
      invariant Concat(batches) + actions == PairLines(index, docs, docIds, i)
      invariant WellChunked(batches, 2 * n)
      invariant i < |docs| ==> FullChunks(batches, 2 * n)
      invariant i < |docs| ==> pending == i % n
      invariant |actions| == 2 * pending
      invariant i == |docs| ==> actions == []
    {
      var pair := [ActionItem(index, docs, docIds, i), DocLine(docs[i])];
      PairLinesStep(index, docs, docIds, i);
      AppendAssoc(Concat(batches), actions, pair);
      actions := actions + pair;
      ModStep(i, n);
      if (i + 1) % n == 0 || i == |docs| - 1 {
        CloseBatch(batches, actions, 2 * n);
        assert Concat(batches + [actions]) + [] == Concat(batches) + actions;
        batches := batches + [actions];
        actions := [];
        pending := 0;
      } else {
        pending := pending + 1;
      }
      i := i + 1;
    }
    if |docs| == 0 {
      return Ok([]);
    }
    BatchesUnique(batches, PairLines(index, docs, docIds, |docs|), 2 * n);
    return Ok(batches);
  }

  /** Chunking `2 * d` lines by `2 * n` gives as many chunks as chunking `d` by `n`. */
  lemma DoubledCeiling(d: nat, n: nat)
    requires n > 0
    ensures (2 * d + 2 * n - 1) / (2 * n) == (d + n - 1) / n
  {
    var a := d + n - 1;
    var q, r := a / n, a % n;
    assert q * (2 * n) == 2 * (q * n);
    DivUnique(2 * d + 2 * n - 1, 2 * n, q, 2 * r + 1);
  }

  /** The bulk batches hold all lines in order, `2 * |batch_size|` lines
      per batch except a shorter non-empty last one, and there are
      ceil(len(documents) / |batch_size|) of them. */
  lemma BulkBatchesShape(index: string, docs: seq<Record>, docIds: Option<seq<string>>, batchSize: int)
    requires batchSize != 0
    ensures var r := BulkLineBatches(index, docs, docIds, batchSize);
      && r.Ok?
      && Concat(r.value) == PairLines(index, docs, docIds, |docs|)
      && WellChunked(r.value, 2 * Abs(batchSize))
      && |r.value| == (|docs| + Abs(batchSize) - 1) / Abs(batchSize)
  {
    var n := Abs(batchSize);
    var lines := PairLines(index, docs, docIds, |docs|);
    if |docs| > 0 {
      BatchesConcat(lines, 2 * n);
      BatchesShape(lines, 2 * n);
      BatchesCount(lines, 2 * n);
      DoubledCeiling(|docs|, n);
    }
  }

  /** `end or len(actions)`: a missing or zero end means the whole list. */
  function EndOrLen(end: nat, n: nat): nat {
    if end == 0 then n else end
  }

  /** The split point of a 413: the midpoint, rounded up to an even line. */
  function SplitPoint(start: nat, end: nat): nat {
    var mid := (start + end) / 2;
    if mid % 2 == 1 then mid + 1 else mid
  }

  /** On even bounds the split point is even and inside the slice, so
      `[start, mid)` and `[mid, end)` partition it without separating an
      action from its document. It is strictly inside for two or more
      documents; for one document it is the end, so the first half is the
      whole slice again. */
  lemma SplitPointPartitions(start: nat, end: nat)
    requires start % 2 == 0 && end % 2 == 0 && start <= end
    ensures SplitPoint(start, end) % 2 == 0
    ensures start <= SplitPoint(start, end) <= end
    ensures end - start >= 4 ==> start < SplitPoint(start, end) < end
    ensures end - start == 2 ==> SplitPoint(start, end) == end
  {
  }

  /** A range within `[lo, hi]` with even bounds. */
  predicate EvenRangeWithin(r: (nat, nat), lo: nat, hi: nat) {
    lo <= r.0 <= r.1 <= hi && r.0 % 2 == 0 && r.1 % 2 == 0
  }

  /** Every range lies within `[lo, hi]` and has even bounds. */
  predicate RangesWithin(sent: seq<(nat, nat)>, lo: nat, hi: nat)
    decreases |sent|
  {
    |sent| == 0 || (EvenRangeWithin(sent[0], lo, hi) && RangesWithin(sent[1..], lo, hi))
  }

  lemma {:induction false} RangesWithinAll(sent: seq<(nat, nat)>, lo: nat, hi: nat)
    requires RangesWithin(sent, lo, hi)
    ensures forall k :: 0 <= k < |sent| ==> EvenRangeWithin(sent[k], lo, hi)
    decreases |sent|
  {
    if |sent| > 0 {
      RangesWithinAll(sent[1..], lo, hi);
    }
  }

  lemma {:induction false} RangesWithinJoin(a: seq<(nat, nat)>, b: seq<(nat, nat)>, lo: nat, hi: nat)
    requires RangesWithin(a, lo, hi) && RangesWithin(b, lo, hi)
    ensures RangesWithin(a + b, lo, hi)
    decreases |a|
  {
    if |a| > 0 {
      RangesWithinJoin(a[1..], b, lo, hi);
      assert (a + b)[1..] == a[1..] + b;
    } else {
      assert a + b == b;
    }
  }

  lemma {:induction false} RangesWithinWiden(a: seq<(nat, nat)>, lo: nat, hi: nat, lo': nat, hi': nat)
    requires RangesWithin(a, lo, hi) && lo' <= lo && hi <= hi'
    ensures RangesWithin(a, lo', hi')
    decreases |a|
  {
    if |a| > 0 {
      RangesWithinWiden(a[1..], lo, hi, lo', hi');
    }
  }

  /** A request for `r` followed by those of two sub-calls stays within
      `[lo, hi]` when each part does. */
  lemma RangesWithinTrace(r: (nat, nat), a: seq<(nat, nat)>, b: seq<(nat, nat)>,
                          lo: nat, hi: nat, aLo: nat, aHi: nat, bLo: nat, bHi: nat)
    ensures EvenRangeWithin(r, lo, hi) && RangesWithin(a, aLo, aHi) && lo <= aLo && aHi <= hi
      ==> RangesWithin([r] + a, lo, hi)
    ensures EvenRangeWithin(r, lo, hi) && RangesWithin(a, aLo, aHi) && lo <= aLo && aHi <= hi
        && RangesWithin(b, bLo, bHi) && lo <= bLo && bHi <= hi
      ==> RangesWithin([r] + a + b, lo, hi)
  {
    if EvenRangeWithin(r, lo, hi) && RangesWithin(a, aLo, aHi) && lo <= aLo && aHi <= hi {
      RangesWithinWiden(a, aLo, aHi, lo, hi);
      assert ([r] + a)[1..] == a;
      if RangesWithin(b, bLo, bHi) && lo <= bLo && bHi <= hi {
        RangesWithinWiden(b, bLo, bHi, lo, hi);
        RangesWithinJoin([r] + a, b, lo, hi);
      }
    }
  }

  /** A slice `[start, end or n)` of the `n` lines with even bounds. */
  predicate EvenSlice(n: nat, start: nat, end: nat) {
    start % 2 == 0 && EndOrLen(end, n) % 2 == 0 && start <= EndOrLen(end, n) <= n
  }

  /** The slices a bisection and a retry recurse on are even slices again,
      nested in the slice they came from. */
  lemma SubSlices(n: nat, start: nat, end: nat)
    ensures EvenSlice(n, start, end) ==>
      var e := EndOrLen(end, n);
      var mid := SplitPoint(start, e);
      && EndOrLen(e, n) == e && EvenSlice(n, start, e)
      && EndOrLen(mid, n) == mid && EvenSlice(n, start, mid)
      && EvenSlice(n, mid, e) && start <= mid <= e
  {
    if EvenSlice(n, start, end) {
      SplitPointPartitions(start, EndOrLen(end, n));
    }
  }

  /** What one `_bulk_index` call did: the value it returned or the error
      it raised, the ranges it sent in request order, and its sleeps. */
  datatype BulkTrace = BulkTrace(result: Result<int>, sent: seq<(nat, nat)>, sleeps: seq<nat>)

  /** `_bulk_index(actions, start, end, backoff)` on `n` lines, with the
      response to its own request at position `calls` of `oracle`.
      Python recurses without bound on a one-document slice that keeps
      answering 413; `fuel` bounds the recursion depth instead. */
  function BulkIndex(n: nat, start: nat, end: nat, backoff: nat, oracle: nat -> Response, calls: nat, fuel: nat): (t: BulkTrace)
    ensures fuel > 0 ==> |t.sent| > 0 && t.sent[0] == (start, EndOrLen(end, n))
    ensures fuel == 0 ==> t == BulkTrace(Err(FuelExhausted), [], [])
    ensures EvenSlice(n, start, end) ==> RangesWithin(t.sent, start, EndOrLen(end, n))
    ensures EvenSlice(n, start, end) && t.result.Ok? ==> 0 <= t.result.value <= EndOrLen(end, n) - start
    decreases fuel
  {
    if fuel == 0 then BulkTrace(Err(FuelExhausted), [], [])
    else
      var e := EndOrLen(end, n);
      var size := e - start;
      var resp := oracle(calls);
      SubSlices(n, start, end);
      if resp.status == PayloadTooLarge then
        var mid := SplitPoint(start, e);
        var left := BulkIndex(n, start, mid, 1, oracle, calls + 1, fuel - 1);
        if left.result.Err? then
          RangesWithinTrace((start, e), left.sent, [], start, e, start, mid, start, e);
          BulkTrace(left.result, [(start, e)] + left.sent, left.sleeps)
        else
          var right := BulkIndex(n, mid, e, 1, oracle, calls + 1 + |left.sent|, fuel - 1);
          var result := if right.result.Err? then right.result
                        else Ok(Max(right.result.value, Min(left.result.value, size)));
          RangesWithinTrace((start, e), left.sent, right.sent, start, e, start, mid, mid, e);
          BulkTrace(result, [(start, e)] + left.sent + right.sent, left.sleeps + right.sleeps)
      else if resp.status == TooManyRequests || resp.status == GatewayTimeout then
        if backoff > MaxBackoff then
          var c := CheckResponse(resp, {});
          BulkTrace(if c.Err? then Err(c.error) else Ok(size), [(start, e)], CheckPause(resp))
        else
          var retry := BulkIndex(n, start, e, backoff * 2, oracle, calls + 1, fuel - 1);
          RangesWithinTrace((start, e), retry.sent, [], start, e, start, e, start, e);
          BulkTrace(if retry.result.Err? then retry.result else Ok(size), [(start, e)] + retry.sent, [backoff] + retry.sleeps)
      else
        var c := CheckResponse(resp, {});
        BulkTrace(if c.Err? then Err(c.error) else Ok(size), [(start, e)], CheckPause(resp))
  }


  /** The sleeps of a retry chain starting at `backoff`: doubling while
      the back-off is at most 60. */
  function BackoffSchedule(backoff: nat): seq<nat>
    requires backoff > 0
    decreases MaxBackoff + 1 - backoff
  {
    if backoff > MaxBackoff then [] else [backoff] + BackoffSchedule(backoff * 2)
  }

  /** From the default back-off the sleeps are 1, 2, 4, 8, 16 and 32 seconds. */
  lemma DefaultBackoffSchedule()
    ensures BackoffSchedule(1) == [1, 2, 4, 8, 16, 32]
  {
  }

  /** A throttled slice is sent whole, once per entry of the schedule plus once more. */
  lemma {:induction false} ThrottledSends(n: nat, start: nat, end: nat, backoff: nat, oracle: nat -> Response, calls: nat, fuel: nat)
    requires backoff > 0
    requires forall k :: oracle(k).status == TooManyRequests || oracle(k).status == GatewayTimeout
    requires fuel > |BackoffSchedule(backoff)|
    ensures |BulkIndex(n, start, end, backoff, oracle, calls, fuel).sent| == |BackoffSchedule(backoff)| + 1
    ensures forall k :: 0 <= k < |BulkIndex(n, start, end, backoff, oracle, calls, fuel).sent| ==> BulkIndex(n, start, end, backoff, oracle, calls, fuel).sent[k] == (start, EndOrLen(end, n))
    decreases fuel
  {
    var e := EndOrLen(end, n);
    assert EndOrLen(e, n) == e;
    if backoff <= MaxBackoff {
      ThrottledSends(n, start, e, backoff * 2, oracle, calls + 1, fuel - 1);
      assert calls + 1 + |BackoffSchedule(backoff * 2)| == calls + |BackoffSchedule(backoff)|;
    }
  }

  /** A throttled slice sleeps through the schedule, plus 10 seconds if the final answer is a gateway timeout. */
  lemma {:induction false} ThrottledSleeps(n: nat, start: nat, end: nat, backoff: nat, oracle: nat -> Response, calls: nat, fuel: nat)
    requires backoff > 0
    requires forall k :: oracle(k).status == TooManyRequests || oracle(k).status == GatewayTimeout
    requires fuel > |BackoffSchedule(backoff)|
    ensures BulkIndex(n, start, end, backoff, oracle, calls, fuel).sleeps == BackoffSchedule(backoff) + CheckPause(oracle(calls + |BackoffSchedule(backoff)|))
    decreases fuel
  {
    var e := EndOrLen(end, n);
    assert EndOrLen(e, n) == e;
    if backoff <= MaxBackoff {
      ThrottledSleeps(n, start, e, backoff * 2, oracle, calls + 1, fuel - 1);
      assert calls + 1 + |BackoffSchedule(backoff * 2)| == calls + |BackoffSchedule(backoff)|;
    }
  }

  /** A throttled slice ends as checking the final response does, and a
      success returns the slice length whatever the retries returned. */
  lemma {:induction false} ThrottledOutcome(n: nat, start: nat, end: nat, backoff: nat, oracle: nat -> Response, calls: nat, fuel: nat)
    requires backoff > 0
    requires forall k :: oracle(k).status == TooManyRequests || oracle(k).status == GatewayTimeout
    requires fuel > |BackoffSchedule(backoff)|
    ensures BulkIndex(n, start, end, backoff, oracle, calls, fuel).result.Ok? <==> CheckResponse(oracle(calls + |BackoffSchedule(backoff)|), {}).Ok?
    ensures BulkIndex(n, start, end, backoff, oracle, calls, fuel).result.Ok? ==> BulkIndex(n, start, end, backoff, oracle, calls, fuel).result.value == EndOrLen(end, n) - start
    decreases fuel
  {
    var e := EndOrLen(end, n);
    assert EndOrLen(e, n) == e;
    if backoff <= MaxBackoff {
      ThrottledOutcome(n, start, e, backoff * 2, oracle, calls + 1, fuel - 1);
      assert calls + 1 + |BackoffSchedule(backoff * 2)| == calls + |BackoffSchedule(backoff)|;
    }
  }

  /** A slice that is throttled on every request is sent once per entry of
      the schedule plus once more, always whole; the sleeps are the
      schedule, plus 10 seconds if the final answer is a gateway timeout;
      the outcome is that of checking the final response, and a success
      returns the slice length, whatever the retries returned. */
  lemma ThrottledRetries(n: nat, start: nat, end: nat, backoff: nat, oracle: nat -> Response, calls: nat, fuel: nat)
    requires backoff > 0
    requires forall k :: oracle(k).status == TooManyRequests || oracle(k).status == GatewayTimeout
    requires fuel > |BackoffSchedule(backoff)|
    ensures var t := BulkIndex(n, start, end, backoff, oracle, calls, fuel);
      var last := oracle(calls + |BackoffSchedule(backoff)|);
      && |t.sent| == |BackoffSchedule(backoff)| + 1
      && (forall k :: 0 <= k < |t.sent| ==> t.sent[k] == (start, EndOrLen(end, n)))
      && t.sleeps == BackoffSchedule(backoff) + CheckPause(last)
      && (t.result.Ok? <==> CheckResponse(last, {}).Ok?)
      && (t.result.Ok? ==> t.result.value == EndOrLen(end, n) - start)
  {
    ThrottledSends(n, start, end, backoff, oracle, calls, fuel);
    ThrottledSleeps(n, start, end, backoff, oracle, calls, fuel);
    ThrottledOutcome(n, start, end, backoff, oracle, calls, fuel);
  }

  /** A one-document slice that answers 413 to every request bisects into
      itself forever: the recursion never ends, here by running out of fuel. */
  lemma {:induction false} OneDocumentTooLarge(n: nat, start: nat, end: nat, backoff: nat, oracle: nat -> Response, calls: nat, fuel: nat)
    requires forall k :: oracle(k).status == PayloadTooLarge
    requires start % 2 == 0 && EndOrLen(end, n) == start + 2
    ensures BulkIndex(n, start, end, backoff, oracle, calls, fuel).result == Err(FuelExhausted)
    decreases fuel
  {
    if fuel > 0 {
      var e := EndOrLen(end, n);
      assert SplitPoint(start, e) == e;
      OneDocumentTooLarge(n, start, e, 1, oracle, calls + 1, fuel - 1);
    }
  }

  /** One step of `_bulk_index` on a 413: the left half is sent, and the
      right half only when the left one succeeds. */
  lemma TooLargeStep(n: nat, start: nat, end: nat, backoff: nat, oracle: nat -> Response, calls: nat, fuel: nat)
    requires fuel > 0 && oracle(calls).status == PayloadTooLarge
    ensures var e := EndOrLen(end, n);
      var mid := SplitPoint(start, e);
      var t := BulkIndex(n, start, end, backoff, oracle, calls, fuel);
      var left := BulkIndex(n, start, mid, 1, oracle, calls + 1, fuel - 1);
      var right := BulkIndex(n, mid, e, 1, oracle, calls + 1 + |left.sent|, fuel - 1);
      && (left.result.Err? ==> t == BulkTrace(left.result, [(start, e)] + left.sent, left.sleeps))
      && (left.result.Ok? ==> t.sent == [(start, e)] + left.sent + right.sent)
      && (left.result.Ok? && right.result.Err? ==> t.result == right.result)
      && (left.result.Ok? && right.result.Ok? ==> t.result == Ok(Max(right.result.value, Min(left.result.value, e - start))))
  {
  }

  /** A 413 on a slice of two or more documents bisects it. The slice is
      resent as `[start, mid)` and, once that half succeeds, as
      `[mid, end)`: the halves cover the slice and split it between
      documents. A failing half ends the call with its error. When both
      succeed, the call returns the larger of the two halves' values, each
      at most its half's line count. */
  lemma TooLargeBisects(n: nat, start: nat, end: nat, backoff: nat, oracle: nat -> Response, calls: nat, fuel: nat)
    requires fuel > 1 && EvenSlice(n, start, end) && EndOrLen(end, n) - start >= 4
    requires oracle(calls).status == PayloadTooLarge
    ensures var e := EndOrLen(end, n);
      var mid := SplitPoint(start, e);
      var t := BulkIndex(n, start, end, backoff, oracle, calls, fuel);
      var left := BulkIndex(n, start, mid, 1, oracle, calls + 1, fuel - 1);
      var right := BulkIndex(n, mid, e, 1, oracle, calls + 1 + |left.sent|, fuel - 1);
      && start < mid < e && mid % 2 == 0
      && |t.sent| > 1 && t.sent[0] == (start, e) && t.sent[1] == (start, mid)
      && (left.result.Err? ==> t.result == left.result && t.sent == [(start, e)] + left.sent)
      && (left.result.Ok? ==> t.sent == [(start, e)] + left.sent + right.sent && t.sent[1 + |left.sent|] == (mid, e))
      && (left.result.Ok? ==> 0 <= left.result.value <= mid - start)
      && (left.result.Ok? && right.result.Ok? ==> t.result == Ok(Max(right.result.value, left.result.value)))
      && (left.result.Ok? && right.result.Err? ==> t.result == right.result)
  {
    var e := EndOrLen(end, n);
    var mid := SplitPoint(start, e);
    SplitPointPartitions(start, e);
    SubSlices(n, start, end);
    TooLargeStep(n, start, end, backoff, oracle, calls, fuel);
    var left := BulkIndex(n, start, mid, 1, oracle, calls + 1, fuel - 1);
    assert left.sent[0] == (start, mid);
    if left.result.Ok? {
      var right := BulkIndex(n, mid, e, 1, oracle, calls + 1 + |left.sent|, fuel - 1);
      assert right.sent[0] == (mid, e);
    }
  }

  /** A throttled request within the back-off bound sleeps for the
      back-off and resends the same slice with it doubled. The retry's
      value is discarded: when the retry succeeds, the call returns the
      slice's own line count. */
  lemma ThrottledRetryDiscarded(n: nat, start: nat, end: nat, backoff: nat, oracle: nat -> Response, calls: nat, fuel: nat)
    requires fuel > 1 && backoff <= MaxBackoff
    requires oracle(calls).status == TooManyRequests || oracle(calls).status == GatewayTimeout
    ensures var e := EndOrLen(end, n);
      var t := BulkIndex(n, start, end, backoff, oracle, calls, fuel);
      var retry := BulkIndex(n, start, e, backoff * 2, oracle, calls + 1, fuel - 1);
      && t.sent == [(start, e)] + retry.sent
      && |t.sent| > 1 && t.sent[1] == (start, e)
      && t.sleeps == [backoff] + retry.sleeps
      && (retry.result.Ok? ==> t.result == Ok(e - start))
      && (retry.result.Err? ==> t.result == retry.result)
  {
  }

  /** The outcome of the concurrent bulk writes: every batch is attempted
      even after a failure, and the failure of the earliest failed batch is
      reported. */
  datatype BulkWrite = BulkWrite(result: Result<()>, requests: nat, sleeps: seq<nat>)

  /** The executor's `_bulk_index(actions)` for each batch of the given line
      counts; the i-th batch's requests follow those of the batches before it. */
  function BulkAll(batchLens: seq<nat>, oracle: nat -> Response, calls: nat, fuel: nat): (w: BulkWrite)
    ensures fuel > 0 ==> w.requests >= |batchLens|
    ensures |batchLens| == 0 ==> w == BulkWrite(Ok(()), 0, [])
    decreases |batchLens|
  {
    if |batchLens| == 0 then BulkWrite(Ok(()), 0, [])
    else
      var t := BulkIndex(batchLens[0], 0, 0, 1, oracle, calls, fuel);
      var rest := BulkAll(batchLens[1..], oracle, calls + |t.sent|, fuel);
      BulkWrite(if t.result.Err? then Err(t.result.error) else rest.result,
                |t.sent| + rest.requests, t.sleeps + rest.sleeps)
  }

  /** The response of a store that accepts a bulk request outright. */
  function Accepted(): Response {
    Response(200, Null)
  }

  /** When the store accepts every request, each batch is sent exactly
      once, nobody sleeps, and the write succeeds. */
  lemma {:induction false} BulkAllAccepted(batchLens: seq<nat>, oracle: nat -> Response, calls: nat, fuel: nat)
    requires fuel > 0
    requires forall k :: oracle(k) == Accepted()
    ensures BulkAll(batchLens, oracle, calls, fuel) == BulkWrite(Ok(()), |batchLens|, [])
    decreases |batchLens|
  {
    if |batchLens| > 0 {
      var t := BulkIndex(batchLens[0], 0, 0, 1, oracle, calls, fuel);
      assert t == BulkTrace(Ok(EndOrLen(0, batchLens[0])), [(0, EndOrLen(0, batchLens[0]))], []);
      BulkAllAccepted(batchLens[1..], oracle, calls + |t.sent|, fuel);
    }
  }

  /** The outcome of `index_documents_in_bulk` and the timing samples after it. */
  datatype BulkOutcome = BulkOutcome(result: Result<()>, requests: nat, sleeps: seq<nat>, samples: seq<Scope>)

  /** `index_documents_in_bulk(index, documents, doc_ids, batch_size)`:
      build the batches, write them all, and time the wait for them. */
  function IndexDocumentsInBulk(index: string, docs: seq<Record>, docIds: Option<seq<string>>, batchSize: int,
                                oracle: nat -> Response, fuel: nat, samples: seq<Scope>): (o: BulkOutcome)
    ensures batchSize == 0 && |docs| > 0 ==> o == BulkOutcome(Err(ZeroDivisionError), 0, [], samples)
    ensures |docs| == 0 ==> o.result.Ok? && o.requests == 0
    ensures o.result.Ok? ==> o.samples == samples + [Scope("elasticsearch", "basic_write", Some(|docs|), None)]
    ensures o.result.Err? ==> o.samples == samples
  {
    match BulkLineBatches(index, docs, docIds, batchSize)
    case Err(err) => BulkOutcome(Err(err), 0, [], samples)
    case Ok(batches) =>
      var lens := seq(|batches|, i requires 0 <= i < |batches| => |batches[i]|);
      var w := BulkAll(lens, oracle, 0, fuel);
      BulkOutcome(w.result, w.requests, w.sleeps,
                  Timed(samples, Scope("elasticsearch", "basic_write", Some(|docs|), None), w.result))
  }

  /** Every batch of a bulk write is sent at least once, so there are at
      least ceil(len(documents) / |batch_size|) requests. */
  lemma BulkWriteRequests(index: string, docs: seq<Record>, docIds: Option<seq<string>>, batchSize: int,
                          oracle: nat -> Response, fuel: nat, samples: seq<Scope>)
    requires batchSize != 0 && fuel > 0
    ensures IndexDocumentsInBulk(index, docs, docIds, batchSize, oracle, fuel, samples).requests
      >= (|docs| + Abs(batchSize) - 1) / Abs(batchSize)
  {
    BulkBatchesShape(index, docs, docIds, batchSize);
  }

  // ---------------------------------------------------------------------
  // Scrolling search

  /** `_hits_from_results`: the hits of a page; a None body has no `.get`. */
  function HitsOf(body: Body): (r: Result<seq<Record>>)
    ensures body.Data? <==> r.Ok?
  {
    if body.Data? then Ok(body.hits.GetOr([]))
    else Err(AttributeError("'NoneType' object has no attribute 'get'"))
  }

  /** The hits `filter_fn` keeps, or all of them without a filter. */
  function KeepHits(hits: seq<Record>, filter: Option<Record -> bool>): (kept: seq<Record>)
    ensures filter.None? ==> kept == hits
    ensures forall h :: h in kept ==> h in hits && (filter.None? || filter.value(h))
    ensures filter.Some? ==> forall h :: h in hits && filter.value(h) ==> h in kept
    decreases |hits|
  {
    if filter.None? then hits
    else if |hits| == 0 then []
    else
      var rest := KeepHits(hits[1..], filter);
      assert forall h :: h in hits <==> h == hits[0] || h in hits[1..];
      if filter.value(hits[0]) then [hits[0]] + rest else rest
  }

  /** What the scroll loop gathered: the kept hits and the truthy scroll ids
      it will clear. */
  datatype Scrolled = Scrolled(hits: seq<Record>, scrollIds: seq<string>)

  /** The `while len(hits) > 0` loop of `query_documents` from a page with
      `hits` and scroll id `sid`; the next page's response is `oracle(calls)`.
      A missing scroll id fetches the first page again, as `_fetch_page(None)` does. */
  function Scroll(hits: seq<Record>, sid: Option<string>, oracle: nat -> Response, calls: nat,
                  filter: Option<Record -> bool>, fuel: nat): (r: Result<Scrolled>)
    ensures r.Ok? ==> forall h :: h in r.value.hits ==> filter.None? || filter.value(h)
    ensures r.Ok? ==> forall s :: s in r.value.scrollIds ==> s != ""
    decreases fuel
  {
    if |hits| == 0 then Ok(Scrolled([], []))
    else if fuel == 0 then Err(FuelExhausted)
    else
      var kept := KeepHits(hits, filter);
      var ids := if sid.Some? && sid.value != "" then [sid.value] else [];
      var body :- CheckResponse(oracle(calls), {});
      var next :- HitsOf(body);
      var rest :- Scroll(next, body.scrollId, oracle, calls + 1, filter, fuel - 1);
      Ok(Scrolled(kept + rest.hits, ids + rest.scrollIds))
  }

  /** `query_documents(index, query, filter_fn=filter)`: the first page is
      `oracle(0)`. Clearing the scroll contexts at the end is fire-and-forget. */
  function QueryDocuments(oracle: nat -> Response, filter: Option<Record -> bool>, fuel: nat): Result<Scrolled> {
    var body :- CheckResponse(oracle(0), {});
    var hits :- HitsOf(body);
    Scroll(hits, body.scrollId, oracle, 1, filter, fuel)
  }

  /** A clean page response: status 200, no errors, the given hits and scroll id. */
  function CleanPage(hits: seq<Record>, sid: string): Response {
    Response(200, Data(NoErrorField, false, None, Some(hits), Some(sid)))
  }

  /** The kept hits of a list of pages, page after page. */
  function KeepPages(pages: seq<seq<Record>>, filter: Option<Record -> bool>): seq<Record>
    decreases |pages|
  {
    if |pages| == 0 then [] else KeepHits(pages[0], filter) + KeepPages(pages[1..], filter)
  }

  /** One turn of the scroll loop over a clean page: the page's kept hits
      and its scroll id come before whatever the rest of the scroll returns. */
  lemma ScrollStep(hits: seq<Record>, sid: string, oracle: nat -> Response, calls: nat,
                   filter: Option<Record -> bool>, fuel: nat, next: seq<Record>, nextSid: string,
                   rest: Scrolled)
    requires |hits| > 0 && fuel > 0 && sid != ""
    requires oracle(calls) == CleanPage(next, nextSid)
    requires Scroll(next, Some(nextSid), oracle, calls + 1, filter, fuel - 1) == Ok(rest)
    ensures Scroll(hits, Some(sid), oracle, calls, filter, fuel)
      == Ok(Scrolled(KeepHits(hits, filter) + rest.hits, [sid] + rest.scrollIds))
  {
    assert CheckResponse(oracle(calls), {}) == Ok(oracle(calls).body);
  }

  /** One page more: if scrolling from page `j + 1` collects pages `j + 1`
      up to `m`, scrolling from page `j` collects pages `j` up to `m`. */
  lemma ScrollPagesStep(pages: seq<seq<Record>>, ids: seq<string>, oracle: nat -> Response,
                        filter: Option<Record -> bool>, j: nat, m: nat, fuel: nat)
    requires |pages| == |ids| && j < m < |pages| && fuel > 0
    requires pages[j] != [] && ids[j] != ""
    requires oracle(j + 1) == CleanPage(pages[j + 1], ids[j + 1])
    requires Scroll(pages[j + 1], Some(ids[j + 1]), oracle, j + 2, filter, fuel - 1)
      == Ok(Scrolled(KeepPages(pages[j + 1..m], filter), ids[j + 1..m]))
    ensures Scroll(pages[j], Some(ids[j]), oracle, j + 1, filter, fuel)
      == Ok(Scrolled(KeepPages(pages[j..m], filter), ids[j..m]))
  {
    var rest := Scrolled(KeepPages(pages[j + 1..m], filter), ids[j + 1..m]);
    ScrollStep(pages[j], ids[j], oracle, j + 1, filter, fuel, pages[j + 1], ids[j + 1], rest);
    assert pages[j..m][0] == pages[j] && pages[j..m][1..] == pages[j + 1..m];
    assert ids[j..m] == [ids[j]] + ids[j + 1..m];
  }

  /** Scrolling from page `j` on collects the kept hits of pages `j` up to
      the empty last one, and the scroll ids of all but the last. */
  lemma {:induction false} ScrollPages(pages: seq<seq<Record>>, ids: seq<string>, oracle: nat -> Response,
                                       filter: Option<Record -> bool>, j: nat, fuel: nat)
    requires |pages| == |ids| && j < |pages|
    requires pages[|pages| - 1] == [] && forall i :: 0 <= i < |pages| - 1 ==> pages[i] != []
    requires forall i :: 0 <= i < |ids| ==> ids[i] != ""
    requires forall i {:trigger oracle(i)} :: 0 <= i < |pages| ==> oracle(i) == CleanPage(pages[i], ids[i])
    requires fuel >= |pages| - 1 - j
    ensures Scroll(pages[j], Some(ids[j]), oracle, j + 1, filter, fuel)
      == Ok(Scrolled(KeepPages(pages[j..|pages| - 1], filter), ids[j..|pages| - 1]))
    decreases |pages| - j
  {
    var m := |pages| - 1;
    if j < m {
      assert pages[j] != [] && ids[j] != "";
      assert oracle(j + 1) == CleanPage(pages[j + 1], ids[j + 1]);
      ScrollPages(pages, ids, oracle, filter, j + 1, fuel - 1);
      ScrollPagesStep(pages, ids, oracle, filter, j, m, fuel);
    } else {
      assert pages[j] == [];
      assert pages[j..m] == [] && ids[j..m] == [];
    }
  }

  /** When the responses are clean pages ending with an empty one,
      `query_documents` returns the kept hits of every page in page order and
      clears every page's scroll id but the last's. */
  lemma QueryCollectsPages(pages: seq<seq<Record>>, ids: seq<string>, oracle: nat -> Response,
                           filter: Option<Record -> bool>, fuel: nat)
    requires |pages| == |ids| && |pages| > 0
    requires pages[|pages| - 1] == [] && forall i :: 0 <= i < |pages| - 1 ==> pages[i] != []
    requires forall i :: 0 <= i < |ids| ==> ids[i] != ""
    requires forall i {:trigger oracle(i)} :: 0 <= i < |pages| ==> oracle(i) == CleanPage(pages[i], ids[i])
    requires fuel >= |pages| - 1
    ensures QueryDocuments(oracle, filter, fuel)
      == Ok(Scrolled(KeepPages(pages[..|pages| - 1], filter), ids[..|pages| - 1]))
  {
    ScrollPages(pages, ids, oracle, filter, 0, fuel);
    assert pages[0..|pages| - 1] == pages[..|pages| - 1];
    assert ids[0..|pages| - 1] == ids[..|pages| - 1];
  }
}
