/** src/write_helpers.py, `write_events`: one round of job records handed
    to the four stores in a fixed order, each store getting its own copy.

    The local clock reading and every store's answers are inputs (`Env`).
 */
module WriteHelpers {
  import opened Wrappers
  import opened Records
  import opened Helpers
  import opened RecordShaping
  import LogStore
  import SearchStore
  import Relational
  import TimeSeries
  import Events

  // ---------------------------------------------------------------------
  // write_events

  /** `_write_to_ts(events)`. */
  function WriteToTs(events: seq<Record>, replies: nat -> Result<()>, samples: seq<Scope>): TimeSeries.TsWrite {
    TimeSeries.Write(TsRows(events), TsColTypes(Events.EventFieldTypes), TsTimeColumn, TimeSeries.ManyMeasures(TsMeasures), TsDimensions, replies, samples)
  }

  datatype Store = CloudWatchLogs | Elasticsearch | Rds | Timestream

  /** The order `write_events` visits the stores in. */
  const WriteOrder: seq<Store> := [CloudWatchLogs, Elasticsearch, Rds, Timestream]

  /** Everything outside the process a round of writes depends on: the
      clock, the log group, and the answers of each store. */
  datatype Env = Env(
    now: LocalTime,
    logGroup: Option<string>,
    logs: LogStore.Backend,
    search: nat -> SearchStore.Response,
    searchFuel: nat,
    commits: nat -> Result<()>,
    tsReplies: nat -> Result<()>)

  /** One store's writer, given its own copy of the records and the timing
      samples so far: how it ended and the samples after it. */
  function WriteTo(env: Env, store: Store, events: seq<Record>, samples: seq<Scope>): (Result<()>, seq<Scope>) {
    match store
    case CloudWatchLogs =>
      var o := LogStore.WriteMany(env.logs, env.logGroup, StreamName(env.now), events, LogStore.Session([], samples));
      (o.result, o.session.samples)
    case Elasticsearch =>
      var o := SearchStore.IndexDocumentsInBulk(EventsIndex, events, None, 500, env.search, env.searchFuel, samples);
      (o.result, o.samples)
    case Rds =>
      (match ConvertAllForRds(Events.EventFieldTypes, events)
       case Err(e) => (Err(e), samples)
       case Ok(rows) =>
         var o := Relational.InsertRows(EventsTable, rows, env.commits, samples);
         (o.result, o.samples))
    case Timestream =>
      var w := WriteToTs(events, env.tsReplies, samples);
      (w.result, w.samples)
  }

  /** A store `write_events` reached, and the records it was handed. */
  datatype Delivery = Delivery(store: Store, events: seq<Record>)

  /** The outcome of `write_events`: how it ended, the stores it reached in
      order with what each returned, and the timing samples after it. */
  datatype WriteReport = WriteReport(result: Result<()>, deliveries: seq<Delivery>, outcomes: seq<Result<()>>, samples: seq<Scope>)

  /** The stores from `stores` on, each with a copy of `events`, stopping at
      the first that raises. */
  function WriteFrom(stores: seq<Store>, events: seq<Record>, samples: seq<Scope>,
                     write: (Store, seq<Record>, seq<Scope>) -> (Result<()>, seq<Scope>)): (w: WriteReport)
    ensures |w.deliveries| == |w.outcomes| <= |stores|
    ensures forall j :: 0 <= j < |w.deliveries| ==> w.deliveries[j] == Delivery(stores[j], events)
    ensures forall j :: 0 <= j < |w.outcomes| - 1 ==> w.outcomes[j].Ok?
    ensures w.result.Ok? <==> |w.outcomes| == |stores| && (|stores| > 0 ==> w.outcomes[|stores| - 1].Ok?)
    ensures w.result.Err? ==> |w.outcomes| > 0 && w.result == w.outcomes[|w.outcomes| - 1]
    decreases |stores|
  {
    if |stores| == 0 then WriteReport(Ok(()), [], [], samples)
    else
      var (r, samples') := write(stores[0], events, samples);
      if r.Err? then WriteReport(r, [Delivery(stores[0], events)], [r], samples')
      else
        var rest := WriteFrom(stores[1..], events, samples', write);
        WriteReport(rest.result, [Delivery(stores[0], events)] + rest.deliveries, [r] + rest.outcomes, rest.samples)
  }

  /** `write_events(events)` in the given surroundings. */
  function WriteEvents(env: Env, events: seq<Record>, samples: seq<Scope>): WriteReport {
    WriteFrom(WriteOrder, events, samples, (store, evs, s) => WriteTo(env, store, evs, s))
  }

  /** The stores are visited as cloudwatch, elasticsearch, rds, timestream,
      each handed the records exactly as the caller passed them; a store
      that raises ends the round, so the stores after it get nothing; and
      the round succeeds iff all four do. */
  lemma WriteEventsOrder(env: Env, events: seq<Record>, samples: seq<Scope>)
    ensures var w := WriteEvents(env, events, samples);
      && 0 < |w.deliveries| <= 4
      && (forall j :: 0 <= j < |w.deliveries| ==> w.deliveries[j] == Delivery(WriteOrder[j], events))
      && (forall j :: 0 <= j < |w.deliveries| - 1 ==> w.outcomes[j].Ok?)
      && (w.result.Ok? <==> |w.deliveries| == 4 && w.outcomes[3].Ok?)
      && (w.result.Err? ==> w.result == w.outcomes[|w.outcomes| - 1])
  {
  }

  /** With no records, every store is reached and none writes anything:
      no log call, no bulk request, no row, no time-series batch. */
  lemma WriteNothing(env: Env, samples: seq<Scope>)
    ensures LogStore.WriteMany(env.logs, env.logGroup, StreamName(env.now), [], LogStore.Session([], samples))
         == LogStore.WriteOutcome(Ok(()), LogStore.Session([], samples))
    ensures SearchStore.IndexDocumentsInBulk(EventsIndex, [], None, 500, env.search, env.searchFuel, samples).requests == 0
    ensures WriteToTs([], env.tsReplies, samples) == TimeSeries.TsWrite(Ok(()), [], [], samples)
    ensures Relational.InsertRows(EventsTable, [], env.commits, samples) == Relational.InsertOutcome(Ok(()), [], samples)
  {
    var none: seq<Record> := [];
    assert Batches(none, Relational.BatchSize) == [];
  }
}
