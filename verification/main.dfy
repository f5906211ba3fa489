/** src/main.py: the writer handler, which generates two batches of
    ingestion jobs and writes every job's record once per stage until it
    errs, and the reader handler, which runs the benchmark queries.

    Clock readings and `random.random()` draws are inputs (`Readings`), and
    so are the answers of the stores (`WriteHelpers.Env`, one per call of
    `write_events`).
 */
module Driver {
  import opened Wrappers
  import opened Records
  import opened Helpers
  import opened Events
  import WriteHelpers
  import QueryHelpers

  // ---------------------------------------------------------------------
  // One batch: the state between rounds

  /** The clock reading and the `random.random()` draw the transition of
      job `j` in round `i` of a batch sees: `clock(i, j)`, `draw(i, j)`. */
  datatype Readings = Readings(clock: (nat, nat) -> int, draw: (nat, nat) -> Unit)

  /** The jobs of one batch between two rounds, and the ids collected in
      `errored_jobs` so far. */
  datatype Round = Round(jobs: seq<IngestionEvent>, errored: set<string>)

  /** The indices, in order, of the jobs from `j` on whose id is not in
      `errored`: the jobs the round's list comprehension keeps. */
  function SelectedFrom(jobs: seq<IngestionEvent>, errored: set<string>, j: nat): (sel: seq<nat>)
    requires j <= |jobs|
    ensures forall k :: 0 <= k < |sel| ==> j <= sel[k] < |jobs| && jobs[sel[k]].jobId !in errored
    ensures forall k, l :: 0 <= k < l < |sel| ==> sel[k] < sel[l]
    decreases |jobs| - j
  {
    if j == |jobs| then []
    else if jobs[j].jobId in errored then SelectedFrom(jobs, errored, j + 1)
    else [j] + SelectedFrom(jobs, errored, j + 1)
  }

  /** The jobs a round writes. */
  function Selected(r: Round): seq<nat> {
    SelectedFrom(r.jobs, r.errored, 0)
  }

  /** `[job.as_dict() for job in job_events if job.job_id not in errored_jobs]`. */
  function Written(r: Round): seq<Record> {
    var sel := Selected(r);
    seq(|sel|, k requires 0 <= k < |sel| => AsDict(r.jobs[sel[k]]))
  }

  /** The ids of the jobs whose `errored` flag is set. */
  function ErroredIds(jobs: seq<IngestionEvent>, j: nat): set<string> {
    set k | j <= k < |jobs| && jobs[k].errored :: jobs[k].jobId
  }

  /** What the sweep does to one job: an errored job is left as it is,
      any other makes its transition. */
  function Step(e: IngestionEvent, now: int, u: Unit): IngestionEvent {
    if e.errored then e else Transition(e, now, u)
  }

  /** The `for job_event in job_events` loop of round `i` from job `j` on:
      an errored job adds its id to `errored_jobs` and is skipped, any other
      moves to its next stage. */
  function SweepFrom(r: Round, i: nat, j: nat, rd: Readings): (r': Round)
    requires j <= |r.jobs|
    ensures |r'.jobs| == |r.jobs|
    ensures forall k :: 0 <= k < j ==> r'.jobs[k] == r.jobs[k]
    ensures forall k :: j <= k < |r.jobs| ==> r'.jobs[k] == Step(r.jobs[k], rd.clock(i, k), rd.draw(i, k))
    ensures r'.errored == r.errored + ErroredIds(r.jobs, j)
    decreases |r.jobs| - j
  {
    if j == |r.jobs| then
      assert ErroredIds(r.jobs, j) == {};
      r
    else if r.jobs[j].errored then
      assert ErroredIds(r.jobs, j) == {r.jobs[j].jobId} + ErroredIds(r.jobs, j + 1);
      SweepFrom(Round(r.jobs, r.errored + {r.jobs[j].jobId}), i, j + 1, rd)
    else
      var jobs' := r.jobs[j := Transition(r.jobs[j], rd.clock(i, j), rd.draw(i, j))];
      forall id | id in ErroredIds(r.jobs, j) ensures id in ErroredIds(jobs', j + 1) {
        var k :| j <= k < |r.jobs| && r.jobs[k].errored && r.jobs[k].jobId == id;
        assert jobs'[k] == r.jobs[k];
      }
      forall id | id in ErroredIds(jobs', j + 1) ensures id in ErroredIds(r.jobs, j) {
        var k :| j + 1 <= k < |jobs'| && jobs'[k].errored && jobs'[k].jobId == id;
        assert jobs'[k] == r.jobs[k];
      }
      SweepFrom(Round(jobs', r.errored), i, j + 1, rd)
  }

  /** The sweep at the end of round `i`, all at once: every job steps, and
      the ids of the jobs that were errored join `errored_jobs`. */
  function Sweep(r: Round, i: nat, rd: Readings): Round {
    Round(seq(|r.jobs|, k requires 0 <= k < |r.jobs| => Step(r.jobs[k], rd.clock(i, k), rd.draw(i, k))),
          r.errored + ErroredIds(r.jobs, 0))
  }

  /** The job-by-job loop computes the sweep. */
  lemma SweepLoop(r: Round, i: nat, rd: Readings)
    ensures SweepFrom(r, i, 0, rd) == Sweep(r, i, rd)
  {
    var r' := SweepFrom(r, i, 0, rd);
    assert r'.jobs == Sweep(r, i, rd).jobs;
  }

  /** The state `m` sweeps after `r`, the first of them the sweep of round `i`. */
  function StateFrom(r: Round, i: nat, m: nat, rd: Readings): (r': Round)
    ensures |r'.jobs| == |r.jobs|
    decreases m
  {
    if m == 0 then r else StateFrom(Sweep(r, i, rd), i + 1, m - 1, rd)
  }

  /** The state in which round `n` of a batch starts. */
  function StateAt(jobs: seq<IngestionEvent>, n: nat, rd: Readings): (r: Round)
    ensures |r.jobs| == |jobs|
  {
    StateFrom(Round(jobs, {}), 0, n, rd)
  }

  /** One more sweep after `m` sweeps is the sweep of round `i + m`. */
  lemma {:induction false} StateFromSucc(r: Round, i: nat, m: nat, rd: Readings)
    ensures StateFrom(r, i, m + 1, rd) == Sweep(StateFrom(r, i, m, rd), i + m, rd)
    decreases m
  {
    if m > 0 {
      var r1 := Sweep(r, i, rd);
      StateFromSucc(r1, i + 1, m - 1, rd);
    }
  }

  /** Round `n + 1` starts from the sweep of round `n`. */
  lemma StateAtSucc(jobs: seq<IngestionEvent>, n: nat, rd: Readings)
    ensures StateAt(jobs, n + 1, rd) == Sweep(StateAt(jobs, n, rd), n, rd)
  {
    StateFromSucc(Round(jobs, {}), 0, n, rd);
  }

  /** Sweeps keep every job's id and batch. */
  lemma {:induction false} StateAtShape(jobs: seq<IngestionEvent>, n: nat, rd: Readings)
    ensures var r := StateAt(jobs, n, rd);
      forall j :: 0 <= j < |jobs| ==> r.jobs[j].jobId == jobs[j].jobId && r.jobs[j].batch == jobs[j].batch
    decreases n
  {
    if n > 0 {
      StateAtShape(jobs, n - 1, rd);
      StateAtSucc(jobs, n - 1, rd);
      var p := StateAt(jobs, n - 1, rd);
      assert StateAt(jobs, n, rd) == Sweep(p, n - 1, rd);
      forall j | 0 <= j < |jobs|
        ensures StateAt(jobs, n, rd).jobs[j].jobId == jobs[j].jobId && StateAt(jobs, n, rd).jobs[j].batch == jobs[j].batch
      {
        assert Sweep(p, n - 1, rd).jobs[j] == Step(p.jobs[j], rd.clock(n - 1, j), rd.draw(n - 1, j));
      }
    }
  }

  /** Once errored, a job stays as it is in every later round. */
  lemma {:induction false} ErroredSticks(jobs: seq<IngestionEvent>, n: nat, m: nat, j: nat, rd: Readings)
    requires n <= m && j < |jobs| && StateAt(jobs, n, rd).jobs[j].errored
    ensures StateAt(jobs, m, rd).jobs[j] == StateAt(jobs, n, rd).jobs[j]
    decreases m - n
  {
    if n < m {
      StateAtSucc(jobs, n, rd);
      var p := StateAt(jobs, n, rd);
      assert Sweep(p, n, rd).jobs[j] == Step(p.jobs[j], rd.clock(n, j), rd.draw(n, j));
      ErroredSticks(jobs, n + 1, m, j, rd);
    }
  }

  /** The ids of a batch's jobs, in order. */
  function JobIds(jobs: seq<IngestionEvent>): (ids: seq<string>)
    ensures |ids| == |jobs| && forall j :: 0 <= j < |jobs| ==> ids[j] == jobs[j].jobId
  {
    seq(|jobs|, j requires 0 <= j < |jobs| => jobs[j].jobId)
  }

  /** The selection from `j` on misses no job whose id is not in `errored`. */
  lemma {:induction false} SelectedComplete(jobs: seq<IngestionEvent>, errored: set<string>, j: nat, x: nat)
    requires j <= x < |jobs| && jobs[x].jobId !in errored
    ensures x in SelectedFrom(jobs, errored, j)
    decreases |jobs| - j
  {
    if j < x {
      SelectedComplete(jobs, errored, j + 1, x);
    }
  }

  /** A job is written in a round iff its id is not in `errored_jobs`. */
  lemma SelectedIff(r: Round, j: nat)
    ensures j in Selected(r) <==> j < |r.jobs| && r.jobs[j].jobId !in r.errored
  {
    if j < |r.jobs| && r.jobs[j].jobId !in r.errored {
      SelectedComplete(r.jobs, r.errored, 0, j);
    }
  }

  /** `errored_jobs` at the start of round `n + 1` holds exactly the ids of
      the jobs that were errored when round `n` started: the ids added in
      earlier rounds belong to jobs that are still errored. */
  lemma {:induction false} ErroredSet(jobs: seq<IngestionEvent>, n: nat, rd: Readings)
    ensures StateAt(jobs, 0, rd).errored == {}
    ensures StateAt(jobs, n + 1, rd).errored == ErroredIds(StateAt(jobs, n, rd).jobs, 0)
    decreases n
  {
    StateAtSucc(jobs, n, rd);
    var p := StateAt(jobs, n, rd);
    if n > 0 {
      ErroredSet(jobs, n - 1, rd);
      var q := StateAt(jobs, n - 1, rd);
      forall id | id in p.errored ensures id in ErroredIds(p.jobs, 0) {
        var k :| 0 <= k < |q.jobs| && q.jobs[k].errored && q.jobs[k].jobId == id;
        ErroredSticks(jobs, n - 1, n, k, rd);
      }
    }
  }

  /** With distinct job ids, a job is written in round `n > 0` iff it was
      not errored when round `n - 1` started; in round 0 every job is. */
  lemma IncludedIff(jobs: seq<IngestionEvent>, n: nat, j: nat, rd: Readings)
    requires Distinct(JobIds(jobs)) && j < |jobs|
    ensures n == 0 ==> j in Selected(StateAt(jobs, n, rd))
    ensures n > 0 ==> (j in Selected(StateAt(jobs, n, rd)) <==> !StateAt(jobs, n - 1, rd).jobs[j].errored)
  {
    StateAtShape(jobs, n, rd);
    SelectedIff(StateAt(jobs, n, rd), j);
    if n == 0 {
      ErroredSet(jobs, 0, rd);
    } else {
      ErroredSet(jobs, n - 1, rd);
      StateAtShape(jobs, n - 1, rd);
      var q := StateAt(jobs, n - 1, rd);
      if jobs[j].jobId in ErroredIds(q.jobs, 0) {
        var k :| 0 <= k < |q.jobs| && q.jobs[k].errored && q.jobs[k].jobId == jobs[j].jobId;
        assert JobIds(jobs)[k] == JobIds(jobs)[j];
      }
    }
  }

  /** With distinct job ids, a job that errs is written once more, in the
      round after the sweep that set its flag, with the flag set, and in no
      round after that. */
  lemma ErroredWrittenOnce(jobs: seq<IngestionEvent>, n: nat, j: nat, rd: Readings)
    requires Distinct(JobIds(jobs)) && j < |jobs|
    requires StateAt(jobs, n, rd).jobs[j].errored
    requires n == 0 || !StateAt(jobs, n - 1, rd).jobs[j].errored
    ensures j in Selected(StateAt(jobs, n, rd))
    ensures forall m :: n < m ==> j !in Selected(StateAt(jobs, m, rd))
  {
    IncludedIff(jobs, n, j, rd);
    forall m | n < m ensures j !in Selected(StateAt(jobs, m, rd)) {
      ErroredSticks(jobs, n, m - 1, j, rd);
      IncludedIff(jobs, m, j, rd);
    }
  }

  /** With an empty `errored_jobs` every job is selected, in order. */
  lemma {:induction false} SelectedAll(jobs: seq<IngestionEvent>, j: nat)
    requires j <= |jobs|
    ensures var sel := SelectedFrom(jobs, {}, j);
      |sel| == |jobs| - j && forall k :: 0 <= k < |sel| ==> sel[k] == j + k
    decreases |jobs| - j
  {
    if j < |jobs| {
      SelectedAll(jobs, j + 1);
    }
  }

  /** With an empty `errored_jobs` a round writes every job's record, in order. */
  lemma WrittenAll(r: Round)
    requires r.errored == {}
    ensures Written(r) == seq(|r.jobs|, k requires 0 <= k < |r.jobs| => AsDict(r.jobs[k]))
  {
    SelectedAll(r.jobs, 0);
  }

  /** With failure rate 0, fresh jobs never err: round `n` starts with every
      job at stage min(n, 6), not errored, finished iff `n >= 6`, and with
      `errored_jobs` empty. */
  lemma {:induction false} FailureFreeRounds(jobs: seq<IngestionEvent>, n: nat, rd: Readings)
    requires forall j :: 0 <= j < |jobs| ==> Fresh(jobs[j]) && Consistent(jobs[j]) && jobs[j].batch.jobFailureRate == 0.0
    ensures var r := StateAt(jobs, n, rd);
      && r.errored == {}
      && forall j :: 0 <= j < |jobs| ==>
        && r.jobs[j].stage.Ordinal() == Min(n, NumStages)
        && !r.jobs[j].errored
        && (r.jobs[j].finished <==> n >= NumStages)
        && Consistent(r.jobs[j])
    decreases n
  {
    if n == 0 {
      ErroredSet(jobs, 0, rd);
    } else {
      FailureFreeRounds(jobs, n - 1, rd);
      StateAtShape(jobs, n - 1, rd);
      StateAtSucc(jobs, n - 1, rd);
      ErroredSet(jobs, n - 1, rd);
      var p := StateAt(jobs, n - 1, rd);
      forall j | 0 <= j < |jobs|
        ensures var e := StateAt(jobs, n, rd).jobs[j];
          && e.stage.Ordinal() == Min(n, NumStages) && !e.errored
          && (e.finished <==> n >= NumStages) && Consistent(e)
      {
        var u := rd.draw(n - 1, j);
        assert StateAt(jobs, n, rd).jobs[j] == Transition(p.jobs[j], rd.clock(n - 1, j), u);
        TransitionProgress(p.jobs[j], rd.clock(n - 1, j), u);
        TransitionFlags(p.jobs[j], rd.clock(n - 1, j), u);
      }
    }
  }

  /** With failure rate 0 every round writes all jobs, and the seventh
      round writes every job at FINISHED, finished and not errored. */
  lemma FailureFreeWrites(jobs: seq<IngestionEvent>, n: nat, rd: Readings)
    requires forall j :: 0 <= j < |jobs| ==> Fresh(jobs[j]) && Consistent(jobs[j]) && jobs[j].batch.jobFailureRate == 0.0
    ensures var r := StateAt(jobs, n, rd);
      Written(r) == seq(|jobs|, k requires 0 <= k < |jobs| => AsDict(r.jobs[k]))
    ensures n == NumStages ==> forall j :: 0 <= j < |jobs| ==>
      var e := StateAt(jobs, n, rd).jobs[j];
      e.stage == Finished && e.finished && !e.errored
  {
    FailureFreeRounds(jobs, n, rd);
    WrittenAll(StateAt(jobs, n, rd));
  }

  // ---------------------------------------------------------------------
  // writer_handler

  /** `num_stages` of the handler: one round per stage, FINISHED included. */
  const RoundsPerBatch: nat := NumStages + 1

  /** A call of `write_events`: its position among the process's calls, the
      records, and the timing samples so far; how it ended and the samples
      after it. */
  type Writer = (nat, seq<Record>, seq<Scope>) -> (Result<()>, seq<Scope>)

  /** `write_events`, the `k`-th call meeting the stores `envs(k)`. */
  function WriteCalls(envs: nat -> WriteHelpers.Env): Writer {
    (k: nat, events: seq<Record>, samples: seq<Scope>) =>
      var w := WriteHelpers.WriteEvents(envs(k), events, samples);
      (w.result, w.samples)
  }

  /** How the rounds of a batch ended: the records handed to each call of
      `write_events` and what each call returned, in order, and the timing
      samples after them. */
  datatype BatchOutcome = BatchOutcome(result: Result<()>, writes: seq<seq<Record>>, results: seq<Result<()>>,
                                       samples: seq<Scope>)

  /** A successful write put in front of a list of results changes
      neither which results fail nor whether all succeed. */
  lemma OkPrefix(x: Result<()>, xs: seq<Result<()>>)
    requires x.Ok?
    ensures var ys := [x] + xs;
      && (forall m :: 0 <= m < |ys| ==> ys[m].Ok?) == (forall m :: 0 <= m < |xs| ==> xs[m].Ok?)
      && forall m :: 1 <= m < |ys| ==> ys[m] == xs[m - 1]
  {
    var ys := [x] + xs;
    assert forall m :: 1 <= m < |ys| ==> ys[m] == xs[m - 1];
    assert forall m :: 0 <= m < |xs| ==> xs[m] == ys[m + 1];
    if forall m :: 0 <= m < |xs| ==> xs[m].Ok? {
      assert forall m :: 0 <= m < |ys| ==> ys[m].Ok? by {
        forall m | 0 <= m < |ys| ensures ys[m].Ok? {
          if m > 0 { assert ys[m] == xs[m - 1]; }
        }
      }
    }
  }

  /** The rounds of a batch from round `i` on, the batch in state `r`: each
      round writes the records of the jobs not in `errored_jobs`, then
      sweeps. `write(k, events, samples)` is the `k`-th call of
      `write_events` in the process; a call that raises ends the handler. */
  function RoundsFrom(r: Round, i: nat, rd: Readings, write: Writer, k: nat,
                      samples: seq<Scope>): (o: BatchOutcome)
    requires i <= RoundsPerBatch
    ensures |o.results| == |o.writes| <= RoundsPerBatch - i
    ensures forall m :: 0 <= m < |o.writes| ==> o.writes[m] == Written(StateFrom(r, i, m, rd))
    ensures forall m :: 0 <= m < |o.results| - 1 ==> o.results[m].Ok?
    ensures o.result.Ok? <==> |o.writes| == RoundsPerBatch - i && forall m :: 0 <= m < |o.results| ==> o.results[m].Ok?
    ensures o.result.Err? ==> 0 < |o.results| && o.result == o.results[|o.results| - 1]
    decreases RoundsPerBatch - i
  {
    if i == RoundsPerBatch then BatchOutcome(Ok(()), [], [], samples)
    else
      var events := Written(r);
      var (result, samples') := write(k, events, samples);
      if result.Err? then BatchOutcome(result, [events], [result], samples')
      else
        var o := RoundsFrom(Sweep(r, i, rd), i + 1, rd, write, k + 1, samples');
        OkPrefix(result, o.results);
        BatchOutcome(o.result, [events] + o.writes, [result] + o.results, o.samples)
  }

  /** What one batch's jobs draw: the seeds and creation clock readings of
      its jobs, and the readings its transitions see. */
  datatype BatchInputs = BatchInputs(seeds: nat -> JobSeed, created: nat -> int, rd: Readings)

  /** Everything `writer_handler` draws or meets: the batch pair's draws,
      each batch's inputs, and `write_events` (`WriteCalls(envs)` for the
      stores `envs`). */
  datatype WriterInputs = WriterInputs(pair: PairDraw, first: BatchInputs, second: BatchInputs, write: Writer)

  /** The handler's result (`num_jobs`), the records of every
      `write_events` call in order, and the timing samples. */
  datatype HandlerOutcome = HandlerOutcome(result: Result<int>, writes: seq<seq<Record>>, samples: seq<Scope>)

  /** The job events of a batch. */
  function BatchJobs(b: IngestionBatch, inputs: BatchInputs): seq<IngestionEvent> {
    GenerateJobEvents(b, inputs.seeds, inputs.created)
  }

  /** `writer_handler`: a batch pair of 6000 to 8000 jobs, then the
      batches' rounds. */
  function WriterHandler(inputs: WriterInputs): HandlerOutcome {
    match GenerateBatchPair(6000, 8000, inputs.pair)
    case Err(e) => HandlerOutcome(Err(e), [], [])
    case Ok((b1, b2)) => WriteBatches(b1, b2, inputs)
  }

  /** The handler once the pair is drawn: both batches' events generated up
      front, then their rounds. */
  function WriteBatches(b1: IngestionBatch, b2: IngestionBatch, inputs: WriterInputs): HandlerOutcome {
    WriteBoth(BatchJobs(b1, inputs.first), BatchJobs(b2, inputs.second), b1.numJobs + b2.numJobs, inputs)
  }

  /** The `for job_events in [...]` loop: the rounds of the first batch,
      then those of the second, then `num_jobs`. */
  function WriteBoth(jobs1: seq<IngestionEvent>, jobs2: seq<IngestionEvent>, numJobs: int, inputs: WriterInputs): HandlerOutcome {
    var o1 := RoundsFrom(Round(jobs1, {}), 0, inputs.first.rd, inputs.write, 0, []);
    if o1.result.Err? then HandlerOutcome(Err(o1.result.error), o1.writes, o1.samples)
    else
      var o2 := RoundsFrom(Round(jobs2, {}), 0, inputs.second.rd, inputs.write, |o1.writes|, o1.samples);
      if o2.result.Err? then HandlerOutcome(Err(o2.result.error), o1.writes + o2.writes, o2.samples)
      else HandlerOutcome(Ok(numJobs), o1.writes + o2.writes, o2.samples)
  }

  /** The rounds of a batch write, in round `n`, the records of the state
      round `n` starts in. */
  lemma BatchWrites(jobs: seq<IngestionEvent>, rd: Readings, write: Writer, k: nat, samples: seq<Scope>)
    ensures var o := RoundsFrom(Round(jobs, {}), 0, rd, write, k, samples);
      && |o.writes| <= RoundsPerBatch
      && (o.result.Ok? ==> |o.writes| == RoundsPerBatch)
      && forall n :: 0 <= n < |o.writes| ==> o.writes[n] == Written(StateAt(jobs, n, rd))
  {
  }

  /** The rounds of the first batch come first, then, if all of them
      returned, those of the second; when every call returns there are 14
      calls and the result is the sum of the two batches' job counts. */
  lemma BatchesWritten(jobs1: seq<IngestionEvent>, jobs2: seq<IngestionEvent>, numJobs: int, inputs: WriterInputs)
    ensures var o := WriteBoth(jobs1, jobs2, numJobs, inputs);
      && |o.writes| <= 2 * RoundsPerBatch
      && (forall n :: 0 <= n < RoundsPerBatch && n < |o.writes| ==> o.writes[n] == Written(StateAt(jobs1, n, inputs.first.rd)))
      && (forall n :: 0 <= n < |o.writes| - RoundsPerBatch ==>
            o.writes[RoundsPerBatch + n] == Written(StateAt(jobs2, n, inputs.second.rd)))
      && (o.result.Ok? ==> |o.writes| == 2 * RoundsPerBatch && o.result.value == numJobs)
  {
    var o := WriteBoth(jobs1, jobs2, numJobs, inputs);
    BatchWrites(jobs1, inputs.first.rd, inputs.write, 0, []);
    var o1 := RoundsFrom(Round(jobs1, {}), 0, inputs.first.rd, inputs.write, 0, []);
    if o1.result.Err? {
      assert o.writes == o1.writes;
    } else {
      BatchWrites(jobs2, inputs.second.rd, inputs.write, |o1.writes|, o1.samples);
      var o2 := RoundsFrom(Round(jobs2, {}), 0, inputs.second.rd, inputs.write, |o1.writes|, o1.samples);
      assert o.writes == o1.writes + o2.writes && |o1.writes| == RoundsPerBatch;
      forall n | 0 <= n < |o.writes| - RoundsPerBatch
        ensures o.writes[RoundsPerBatch + n] == Written(StateAt(jobs2, n, inputs.second.rd))
      {
        assert o.writes[|o1.writes| + n] == o2.writes[n];
      }
    }
  }

  /** The pair is always drawn, each batch has its job count of jobs, and a
      handler that returns reports between 6000 and 8000 jobs. */
  lemma WriterHandlerResult(inputs: WriterInputs)
    ensures GenerateBatchPair(6000, 8000, inputs.pair).Ok?
    ensures var (b1, b2) := GenerateBatchPair(6000, 8000, inputs.pair).value;
      var o := WriterHandler(inputs);
      && o == WriteBatches(b1, b2, inputs)
      && |BatchJobs(b1, inputs.first)| == b1.numJobs && |BatchJobs(b2, inputs.second)| == b2.numJobs
      && (o.result.Ok? ==> 6000 <= o.result.value <= 8000)
  {
    BatchPairShape(6000, 8000, inputs.pair);
  }

  // ---------------------------------------------------------------------
  // reader_handler

  /** `reader_handler(event)`: the queries at the event's scale, None when
      the event has no "scale" key. */
  function ReaderHandler(event: map<string, string>, cats: QueryHelpers.Catalogs,
                         answers: QueryHelpers.Answers): QueryHelpers.QueryOutcome {
    QueryHelpers.PerformQueries(cats, if "scale" in event then Some(event["scale"]) else None, answers)
  }

  /** When every query returns, the reader records the planned samples at
      the event's scale. */
  lemma ReaderFollowsPlan(event: map<string, string>, cats: QueryHelpers.Catalogs, answers: QueryHelpers.Answers)
    requires QueryHelpers.AllAnswered(cats, answers)
    ensures var o := ReaderHandler(event, cats, answers);
      && o.result.Ok?
      && o.samples == QueryHelpers.PlannedSamples(if "scale" in event then Some(event["scale"]) else None)
  {
    QueryHelpers.PerformQueriesFollowsPlan(cats, if "scale" in event then Some(event["scale"]) else None, answers);
  }
}
