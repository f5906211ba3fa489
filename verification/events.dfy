/** src/events.py: the job stage machine and the synthetic batches that
    feed it.

    Randomness is an input: `random.random()` is a value of `Unit`, every
    `choice(...)` is an index into the tuple it draws from, and the uuid and
    Faker identifiers are part of a `JobSeed`.
 */
module Events {
  import opened Wrappers
  import opened Records
  import opened Helpers
  import Text

  /** A draw of `random.random()`. */
  type Unit = u: real | 0.0 <= u < 1.0

  /** `IngestionJobStage`, an integer enumeration from 0 to 6. */
  datatype Stage =
    | InQueue
    | ProcessingFileContentsPart1
    | ProcessingFileMetadataPart1
    | Staged
    | ProcessingFileContentsPart2
    | ProcessingFileMetadataPart2
    | Finished
  {
    function Ordinal(): nat {
      match this
      case InQueue => 0
      case ProcessingFileContentsPart1 => 1
      case ProcessingFileMetadataPart1 => 2
      case Staged => 3
      case ProcessingFileContentsPart2 => 4
      case ProcessingFileMetadataPart2 => 5
      case Finished => 6
    }
  }

  /** `IngestionJobStage(n)`; any other integer raises ValueError. */
  function StageOf(n: int): Result<Stage> {
    if n == 0 then Ok(InQueue)
    else if n == 1 then Ok(ProcessingFileContentsPart1)
    else if n == 2 then Ok(ProcessingFileMetadataPart1)
    else if n == 3 then Ok(Staged)
    else if n == 4 then Ok(ProcessingFileContentsPart2)
    else if n == 5 then Ok(ProcessingFileMetadataPart2)
    else if n == 6 then Ok(Finished)
    else Err(ValueError("not a valid IngestionJobStage"))
  }

  /** The ordinal identifies the stage, and only 0..6 are stages. */
  lemma StageOrdinalRoundTrip(s: Stage, n: int)
    ensures StageOf(s.Ordinal()) == Ok(s)
    ensures StageOf(n).Ok? <==> 0 <= n <= Finished.Ordinal()
    ensures StageOf(n).Ok? ==> StageOf(n).value.Ordinal() == n
  {
  }

  /** `num_stages`: the ordinal of the last stage. */
  const NumStages: nat := Finished.Ordinal()

  /** The `stage_names` table of `_name_for_stage`. */
  const StageNames: map<int, string> := map[
    0 := "In-queue",
    1 := "Processing file contents, Part I",
    2 := "Processing file metadata, Part I",
    3 := "Staged",
    4 := "Processing file contents, Part II",
    5 := "Processing file metadata, Part II",
    6 := "Finished"
  ]

  /** `str(stage)`: the human-readable name. The table covers every ordinal,
      so the Python `.get` never yields None. */
  function StageName(s: Stage): string {
    StageNames[s.Ordinal()]
  }

  /** The name table is total over the seven stages and gives each a name of its own. */
  lemma StageNamesTotalAndDistinct()
    ensures forall s: Stage :: s.Ordinal() in StageNames
    ensures forall s: Stage, t: Stage :: s != t ==> StageName(s) != StageName(t)
    ensures StageName(Finished) == "Finished" && StageName(InQueue) == "In-queue"
  {
  }

  /** `next_stage`: one step up, except at FINISHED which is kept. */
  function NextStage(s: Stage): (t: Stage)
    ensures s.Ordinal() < Finished.Ordinal() ==> t.Ordinal() == s.Ordinal() + 1
    ensures s == Finished ==> t == Finished
  {
    if s.Ordinal() >= Finished.Ordinal() then s else StageOf(s.Ordinal() + 1).value
  }

  datatype IngestionBatch = IngestionBatch(
    batchId: string,
    orgId: string,
    userId: string,
    repoId: string,
    repoVersion: string,
    priority: string,
    numJobs: int,
    jobFailureRate: real,
    createdAt: int)

  /** The identifiers a new job draws: its uuid, the index of its job type
      in `job_types`, and its Faker dataset id. */
  datatype JobSeed = JobSeed(jobId: string, jobTypeChoice: nat, datasetId: string)

  const JobTypes: seq<string> := ["ADD", "UPDATE", "DELETE"]

  /** `choice(xs)` for the draw `k`. */
  function Choose<T>(xs: seq<T>, k: nat): (x: T)
    requires |xs| > 0
    ensures x in xs
  {
    xs[k % |xs|]
  }

  datatype IngestionEvent = IngestionEvent(
    batch: IngestionBatch,
    jobId: string,
    jobType: string,
    datasetId: string,
    numStages: int,
    time: int,
    stage: Stage,
    stageProgress: int,
    errored: bool,
    finished: bool)

  /** The state in which `IngestionEvent.__init__` leaves a job. */
  ghost predicate Fresh(e: IngestionEvent) {
    && e.stage == InQueue
    && e.stageProgress == 0
    && !e.errored
    && !e.finished
    && e.numStages == 6
    && e.jobType in JobTypes
  }

  /** What every transition keeps: the progress field mirrors the stage,
      `num_stages` is 6, and only the last stage can be finished. */
  ghost predicate Consistent(e: IngestionEvent) {
    && e.stageProgress == e.stage.Ordinal()
    && e.numStages == NumStages
    && (e.finished ==> e.stage == Finished)
  }

  /** `IngestionEvent(batch)` at clock reading `now` (milliseconds). */
  function NewEvent(batch: IngestionBatch, seed: JobSeed, now: int): (e: IngestionEvent)
    ensures Fresh(e) && Consistent(e)
    ensures e.batch == batch && e.jobId == seed.jobId && e.time == now
  {
    IngestionEvent(batch, seed.jobId, Choose(JobTypes, seed.jobTypeChoice), seed.datasetId,
                   NumStages, now, InQueue, InQueue.Ordinal(), false, false)
  }

  /** `transition_to_next_stage` at clock reading `now` with the draw `u`.
      The class itself does not look at `errored`. */
  function Transition(e: IngestionEvent, now: int, u: Unit): (e': IngestionEvent)
    ensures e'.stage == NextStage(e.stage)
    ensures e'.time == now
    ensures e'.batch == e.batch && e'.jobId == e.jobId && e'.jobType == e.jobType
    ensures e'.datasetId == e.datasetId && e'.numStages == e.numStages
  {
    var stage := NextStage(e.stage);
    e.(time := now,
       stage := stage,
       stageProgress := stage.Ordinal(),
       errored := if stage != Finished then u < e.batch.jobFailureRate else e.errored,
       finished := if stage != Finished then e.finished else true)
  }

  /** After any transition the progress equals the new stage's ordinal and
      the ordinal has not decreased; every transition keeps `Consistent`. */
  lemma TransitionProgress(e: IngestionEvent, now: int, u: Unit)
    ensures var e' := Transition(e, now, u);
      && e'.stageProgress == e'.stage.Ordinal()
      && e.stage.Ordinal() <= e'.stage.Ordinal()
      && (Consistent(e) ==> Consistent(e'))
  {
  }

  /** Entering a stage other than FINISHED overwrites `errored` with the
      draw's verdict and keeps `finished`; entering FINISHED sets `finished`
      and keeps `errored`. */
  lemma TransitionFlags(e: IngestionEvent, now: int, u: Unit)
    ensures var e' := Transition(e, now, u);
      && (e'.stage != Finished ==> e'.errored == (u < e.batch.jobFailureRate) && e'.finished == e.finished)
      && (e'.stage == Finished ==> e'.finished && e'.errored == e.errored)
  {
  }

  /** `k` transitions in a row, the i-th at clock `nows[i]` with draw `us[i]`. */
  function TransitionMany(e: IngestionEvent, nows: seq<int>, us: seq<Unit>): IngestionEvent
    requires |nows| == |us|
    decreases |us|
  {
    if |us| == 0 then e else TransitionMany(Transition(e, nows[0], us[0]), nows[1..], us[1..])
  }

  /** With failure rate 0 no draw errs: after `k` transitions from a fresh
      job the stage ordinal is min(k, 6), `errored` is false, and `finished`
      holds exactly from the sixth transition on. */
  lemma {:induction false} FailureFreeRun(e: IngestionEvent, nows: seq<int>, us: seq<Unit>)
    requires |nows| == |us|
    requires e.batch.jobFailureRate == 0.0
    requires !e.errored && Consistent(e) && !e.finished && e.stage != Finished
    ensures var e' := TransitionMany(e, nows, us);
      && e'.stage.Ordinal() == Min(e.stage.Ordinal() + |us|, 6)
      && !e'.errored
      && (e'.finished <==> e.stage.Ordinal() + |us| >= 6)
    decreases |us|
  {
    if |us| > 0 {
      var e1 := Transition(e, nows[0], us[0]);
      TransitionProgress(e, nows[0], us[0]);
      if e1.finished {
        FinishedStaysFinished(e1, nows[1..], us[1..]);
      } else {
        FailureFreeRun(e1, nows[1..], us[1..]);
      }
    }
  }

  lemma {:induction false} FinishedStaysFinished(e: IngestionEvent, nows: seq<int>, us: seq<Unit>)
    requires |nows| == |us|
    requires e.stage == Finished && e.finished && !e.errored
    ensures var e' := TransitionMany(e, nows, us);
      e'.stage == Finished && e'.finished && !e'.errored
    decreases |us|
  {
    if |us| > 0 {
      FinishedStaysFinished(Transition(e, nows[0], us[0]), nows[1..], us[1..]);
    }
  }

  /** The six transitions from a fresh job reach FINISHED, finished and not errored, when the rate is 0. */
  lemma SixTransitionsFinish(e: IngestionEvent, nows: seq<int>, us: seq<Unit>)
    requires Fresh(e) && Consistent(e) && e.batch.jobFailureRate == 0.0
    requires |nows| == |us| == 6
    ensures var e' := TransitionMany(e, nows, us);
      e'.stage == Finished && e'.finished && !e'.errored
  {
    FailureFreeRun(e, nows, us);
  }

  /** With failure rate 1 every draw errs: the first transition of a fresh job sets `errored`. */
  lemma CertainFailure(e: IngestionEvent, now: int, u: Unit)
    requires Fresh(e) && e.batch.jobFailureRate >= 1.0
    ensures Transition(e, now, u).errored
  {
  }

  /** The field names and types of `get_types_for_event_fields`, in order. */
  const EventFieldTypes: seq<(string, DataType)> := [
    ("ingestion_batch_id", String),
    ("org_id", String),
    ("user_id", String),
    ("repo_id", String),
    ("repo_version", String),
    ("priority", String),
    ("job_id", String),
    ("job_type", String),
    ("created_at", Timestamp),
    ("dataset_id", String),
    ("num_stages", Integer),
    ("time", Timestamp),
    ("stage", String),
    ("stage_progress", Integer),
    ("errored", Boolean),
    ("finished", Boolean)
  ]

  function SchemaNames(schema: seq<(string, DataType)>): (names: seq<string>)
    ensures |names| == |schema|
    ensures forall i :: 0 <= i < |schema| ==> names[i] == schema[i].0
  {
    seq(|schema|, i requires 0 <= i < |schema| => schema[i].0)
  }

  /** The values of `as_dict`, in the order of its keys: the batch's
      fields, the job's identifiers, and the stage as its name. */
  function EventValues(e: IngestionEvent): (vs: seq<Value>)
    ensures |vs| == |EventFieldTypes|
  {
    [
      VStr(e.batch.batchId),
      VStr(e.batch.orgId),
      VStr(e.batch.userId),
      VStr(e.batch.repoId),
      VStr(e.batch.repoVersion),
      VStr(e.batch.priority),
      VStr(e.jobId),
      VStr(e.jobType),
      VInt(e.batch.createdAt),
      VStr(e.datasetId),
      VInt(e.numStages),
      VInt(e.time),
      VStr(StageName(e.stage)),
      VInt(e.stageProgress),
      VBool(e.errored),
      VBool(e.finished)
    ]
  }

  /** `as_dict`: the flat record of a job. Its keys are written in the same
      order as those of `get_types_for_event_fields`. */
  function AsDict(e: IngestionEvent): Record {
    FromPairs(SchemaNames(EventFieldTypes), EventValues(e))
  }

  /** A value of the declared type: text for STRING, an integer for INTEGER
      and for millisecond TIMESTAMPs, a boolean for BOOLEAN. */
  predicate HasType(v: Value, t: DataType) {
    match t
    case String => v.VStr?
    case Integer => v.VInt?
    case Timestamp => v.VInt?
    case Boolean => v.VBool?
    case Double => false
  }

  /** `as_dict` has exactly the keys of `get_types_for_event_fields`, in the
      same order, each holding a value of its declared type. */
  lemma AsDictMatchesSchema(e: IngestionEvent)
    ensures Keys(AsDict(e)) == SchemaNames(EventFieldTypes)
    ensures forall i :: 0 <= i < |EventFieldTypes| ==> HasType(AsDict(e)[i].value, EventFieldTypes[i].1)
  {
    var vs := EventValues(e);
    assert forall i :: 0 <= i < |EventFieldTypes| ==> HasType(vs[i], EventFieldTypes[i].1);
  }

  /** The record holds the stage's name under "stage" and, for a consistent
      job, its ordinal under "stage_progress". */
  lemma AsDictStage(e: IngestionEvent)
    requires Consistent(e)
    ensures AsDict(e)[12] == Field("stage", VStr(StageName(e.stage)))
    ensures AsDict(e)[13] == Field("stage_progress", VInt(e.stage.Ordinal()))
  {
  }

  /** The record holds the job's creation time under "created_at" and its
      clock under "time", both declared TIMESTAMP. */
  lemma AsDictTimes(e: IngestionEvent)
    ensures AsDict(e)[8] == Field("created_at", VInt(e.batch.createdAt)) && EventFieldTypes[8].1 == Timestamp
    ensures AsDict(e)[11] == Field("time", VInt(e.time)) && EventFieldTypes[11].1 == Timestamp
  {
  }

  /** Where the fields the stores treat specially sit in the schema. */
  lemma EventFieldsAt()
    ensures SchemaNames(EventFieldTypes)[8] == "created_at" && SchemaNames(EventFieldTypes)[10] == "num_stages"
    ensures EventFieldTypes[11] == ("time", Timestamp)
    ensures EventFieldTypes[13] == ("stage_progress", Integer)
    ensures EventFieldTypes[14] == ("errored", Boolean)
  {
  }

  /** `generate_ingestion_job_events`: `num_jobs` fresh jobs of the batch,
      the i-th with seed `seeds(i)` created at clock `clock(i)`. */
  function GenerateJobEvents(batch: IngestionBatch, seeds: nat -> JobSeed, clock: nat -> int): (es: seq<IngestionEvent>)
    ensures |es| == if batch.numJobs < 0 then 0 else batch.numJobs
    ensures forall i :: 0 <= i < |es| ==> es[i].batch == batch && Fresh(es[i]) && Consistent(es[i])
  {
    var n := if batch.numJobs < 0 then 0 else batch.numJobs;
    var es := seq(n, i requires 0 <= i < n => NewEvent(batch, seeds(i), clock(i)));
    assert forall i :: 0 <= i < n ==> es[i] == NewEvent(batch, seeds(i), clock(i));
    es
  }

  const OrgIds: seq<string> := ["1", "2"]
  const UserIdsForOrg: map<string, seq<string>> := map[
    "1" := ["0011", "0111", "1111", "1110", "1100"],
    "2" := ["0001", "1000"]
  ]
  const Fractions: seq<real> := [0.1, 0.25, 0.5]
  const FailureRates: seq<real> := [0.0, 0.0001, 0.01]
  const RepoIds: seq<string> := ["16311212173", "16554252419", "16629121578"]
  const Priorities: seq<string> := ["HIGH", "MEDIUM", "LOW"]

  /** The random draws of `generate_ingestion_batch_pair`, as indices into
      the tuples they choose from, plus the two clock readings. */
  datatype PairDraw = PairDraw(
    org: nat,
    firstUser: nat,
    secondUser: nat,
    repo: nat,
    priority: nat,
    jobs: nat,
    split: nat,
    firstRate: nat,
    secondRate: nat,
    nowSeconds: int,
    firstCreatedMs: int,
    secondCreatedMs: int)

  /** `int(x)`: truncation toward zero. */
  function Truncate(x: real): int {
    if x >= 0.0 then x.Floor else -((-x).Floor)
  }

  /** `f"{repo_id}__{repo_version}__{user_id}"`. */
  function BatchId(repoId: string, repoVersion: string, userId: string): string {
    repoId + "__" + repoVersion + "__" + userId
  }

  /** `generate_ingestion_batch_pair(min, max)`; `random.randint` raises when min > max. */
  function GenerateBatchPair(minJobs: int, maxJobs: int, d: PairDraw): Result<(IngestionBatch, IngestionBatch)> {
    if minJobs > maxJobs then Err(ValueError("empty range for randrange()"))
    else
      var org := Choose(OrgIds, d.org);
      assert org in UserIdsForOrg;
      var users := UserIdsForOrg[org];
      var first := Choose(users, d.firstUser);
      var second := Choose(users, d.secondUser);
      var repo := Choose(RepoIds, d.repo);
      var version := Text.IntToString(d.nowSeconds);
      var priority := Choose(Priorities, d.priority);
      var total := minJobs + d.jobs % (maxJobs - minJobs + 1);
      var firstJobs := Truncate(total as real * Choose(Fractions, d.split));
      Ok((IngestionBatch(BatchId(repo, version, first), org, first, repo, version, priority,
                         firstJobs, Choose(FailureRates, d.firstRate), d.firstCreatedMs),
          IngestionBatch(BatchId(repo, version, second), org, second, repo, version, priority,
                         total - firstJobs, Choose(FailureRates, d.secondRate), d.secondCreatedMs)))
  }

  /** The pair shares org, repo, version and priority; each user belongs to
      the org; the job counts add up to a total drawn from [min, max] and the
      first gets a fraction of it; each id is `repo__version__user`, so the
      ids are equal iff the users are. */
  lemma BatchPairShape(minJobs: int, maxJobs: int, d: PairDraw)
    requires minJobs <= maxJobs
    ensures GenerateBatchPair(minJobs, maxJobs, d).Ok?
    ensures var (b1, b2) := GenerateBatchPair(minJobs, maxJobs, d).value;
      && b1.orgId == b2.orgId && b1.repoId == b2.repoId
      && b1.repoVersion == b2.repoVersion && b1.priority == b2.priority
      && b1.orgId in UserIdsForOrg && b1.userId in UserIdsForOrg[b1.orgId] && b2.userId in UserIdsForOrg[b1.orgId]
      && minJobs <= b1.numJobs + b2.numJobs <= maxJobs
      && (minJobs >= 0 ==> 0 <= b1.numJobs <= b1.numJobs + b2.numJobs)
      && b1.batchId == BatchId(b1.repoId, b1.repoVersion, b1.userId)
      && b2.batchId == BatchId(b2.repoId, b2.repoVersion, b2.userId)
      && (b1.batchId == b2.batchId <==> b1.userId == b2.userId)
      && b1.jobFailureRate in FailureRates && b2.jobFailureRate in FailureRates
  {
    var (b1, b2) := GenerateBatchPair(minJobs, maxJobs, d).value;
    var prefix := b1.repoId + "__" + b1.repoVersion + "__";
    assert b1.batchId == prefix + b1.userId && b2.batchId == prefix + b2.userId;
    if b1.batchId == b2.batchId {
      assert b1.userId == b1.batchId[|prefix|..] == b2.userId;
    }
    var total := b1.numJobs + b2.numJobs;
    var f := Choose(Fractions, d.split);
    if minJobs >= 0 {
      assert 0.0 <= total as real * f <= total as real;
    }
  }
}
