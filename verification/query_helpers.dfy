/** src/query_helpers.py: which query each store runs, how the runs are
    labelled in the metrics table, and the order they are issued in.

    The query catalogues of src/queries are opaque payloads: `Catalogs` maps
    a catalogue number and a service key to a payload. The stores' query
    calls are one oracle, which answers each run of a type's query against
    a store.
 */
module QueryHelpers {
  import opened Wrappers
  import opened Helpers
  import Text

  datatype QueryType = TypeI | TypeII | TypeIII | TypeIV | TypeV {
    /** The enum value. */
    function Value(): nat {
      match this
      case TypeI => 1
      case TypeII => 2
      case TypeIII => 3
      case TypeIV => 4
      case TypeV => 5
    }
  }

  /** The query types in the order `perform_queries` runs them. */
  const QueryTypes: seq<QueryType> := [TypeI, TypeII, TypeIII, TypeIV, TypeV]

  /** The query type with a given enum value, if any. */
  function QueryTypeOf(n: int): Option<QueryType> {
    if n == 1 then Some(TypeI)
    else if n == 2 then Some(TypeII)
    else if n == 3 then Some(TypeIII)
    else if n == 4 then Some(TypeIV)
    else if n == 5 then Some(TypeV)
    else None
  }

  /** The catalogues type1 .. type5: catalogue number, then service key. */
  type Catalogs = nat -> map<string, string>

  /** The catalogue `get_query` consults: the first four types each have
      their own, anything else falls through to type5. */
  function CatalogOf(t: QueryType): nat {
    if t == TypeI then 1
    else if t == TypeII then 2
    else if t == TypeIII then 3
    else if t == TypeIV then 4
    else 5
  }

  /** `query_type.get_query(service)`: the catalogue's entry for the service,
      None when it has none. */
  function GetQuery(cats: Catalogs, t: QueryType, service: string): (q: Option<string>)
    ensures q.Some? <==> service in cats(t.Value())
    ensures q.Some? ==> q.value == cats(t.Value())[service]
  {
    var cat := cats(CatalogOf(t));
    if service in cat then Some(cat[service]) else None
  }

  /** `str(query_type)`. */
  function QueryTypeName(t: QueryType): (s: string)
    ensures |s| == 12
  {
    "query_type_" + Text.IntToString(t.Value())
  }

  /** The query type a name denotes, if it is one of the five. */
  function QueryTypeFromName(s: string): Option<QueryType> {
    if |s| > 11 && s[..11] == "query_type_" then
      match Text.ParseInt(s[11..])
      case Ok(n) => QueryTypeOf(n)
      case Err(_) => None
    else None
  }

  /** Each name reads back as its query type, so the five names differ. */
  lemma QueryTypeNameRoundTrip(t: QueryType)
    ensures QueryTypeFromName(QueryTypeName(t)) == Some(t)
    ensures forall u: QueryType :: QueryTypeName(u) == QueryTypeName(t) ==> u == t
  {
    forall u: QueryType
      ensures QueryTypeFromName(QueryTypeName(u)) == Some(u)
    {
      var s := QueryTypeName(u);
      assert s[11..] == Text.IntToString(u.Value());
      Text.IntToStringRoundTrip(u.Value());
    }
  }

  /** `f"{scale}"`: the scale of the reader event, "None" when it has none. */
  function ScaleText(scale: Option<string>): string {
    match scale
    case Some(s) => s
    case None => "None"
  }

  /** `f"{query_type}__{scale}"`, the operation every store's runs are
      recorded under. */
  function Label(t: QueryType, scale: Option<string>): string {
    QueryTypeName(t) + "__" + ScaleText(scale)
  }

  /** The query type and scale text a label was made from, if it is one. */
  function ParseLabel(s: string): Option<(QueryType, string)> {
    if |s| >= 14 && s[12..14] == "__" then
      match QueryTypeFromName(s[..12])
      case Some(t) => Some((t, s[14..]))
      case None => None
    else None
  }

  /** A label gives back the query type and the scale it names. */
  lemma LabelRoundTrip(t: QueryType, scale: Option<string>)
    ensures ParseLabel(Label(t, scale)) == Some((t, ScaleText(scale)))
  {
    var s := Label(t, scale);
    assert s[..12] == QueryTypeName(t) && s[14..] == ScaleText(scale);
    QueryTypeNameRoundTrip(t);
  }

  // ---------------------------------------------------------------------
  // The stores queried

  datatype Backend = Cw | Es | Rds | Ts {
    /** The key the catalogues file its query for this store under. */
    function Service(): string {
      match this
      case Cw => "cw"
      case Es => "es"
      case Rds => "rds"
      case Ts => "ts"
    }

    /** The `data_store` the runs against this store are recorded under. */
    function DataStore(): string {
      match this
      case Cw => "cloudwatch_logs"
      case Es => "elasticsearch"
      case Rds => "rds"
      case Ts => "ts"
    }
  }

  /** The order `perform_queries` visits the stores in, for each type. */
  const BackendOrder: seq<Backend> := [Cw, Es, Rds, Ts]

  /** Runs per store and type. */
  const Runs: nat := 10

  /** The answer of a store to the `i`-th run of a query type's query:
      Ok when the call returns normally. */
  type Answers = (QueryType, Backend, Option<string>, nat) -> Result<()>

  /** The timed scope of the `i`-th run against a store. */
  function RunScope(b: Backend, op: string, i: nat): Scope {
    Scope(b.DataStore(), op, None, Some(i == 0))
  }

  /** The scopes of `n` runs from run `i` on. */
  function RunScopes(b: Backend, op: string, i: nat, n: nat): (ss: seq<Scope>)
    ensures |ss| == n && forall k :: 0 <= k < n ==> ss[k] == RunScope(b, op, i + k)
  {
    seq(n, k requires 0 <= k < n => RunScope(b, op, i + k))
  }

  lemma RunScopesCons(b: Backend, op: string, i: nat, n: nat)
    ensures RunScopes(b, op, i, n + 1) == [RunScope(b, op, i)] + RunScopes(b, op, i + 1, n)
  {
    assert RunScopes(b, op, i, n + 1)[1..] == RunScopes(b, op, i + 1, n);
  }

  /** How a sequence of queries ended, and the timing samples after it. */
  datatype QueryOutcome = QueryOutcome(result: Result<()>, samples: seq<Scope>)

  /** The first run from `i` on whose call raises, or `Runs` when none does. */
  function FirstFailure(t: QueryType, b: Backend, query: Option<string>, answers: Answers, i: nat): (f: nat)
    requires i <= Runs
    ensures i <= f <= Runs
    ensures forall j :: i <= j < f ==> answers(t, b, query, j).Ok?
    ensures f < Runs ==> answers(t, b, query, f).Err?
    decreases Runs - i
  {
    if i == Runs || answers(t, b, query, i).Err? then i else FirstFailure(t, b, query, answers, i + 1)
  }

  /** The `for i in range(10)` loop of `_query_from_*` from run `i` on:
      each run is timed and recorded only when it returns; a run that
      raises ends the loop, and with it `perform_queries`. */
  function RunFrom(t: QueryType, b: Backend, query: Option<string>, op: string, answers: Answers,
                   i: nat, samples: seq<Scope>): (o: QueryOutcome)
    requires i <= Runs
    ensures o.result.Ok? <==> forall k :: i <= k < Runs ==> answers(t, b, query, k).Ok?
    ensures var f := FirstFailure(t, b, query, answers, i);
      && o.samples == samples + RunScopes(b, op, i, f - i)
      && (o.result.Err? ==> o.result == answers(t, b, query, f))
    decreases Runs - i
  {
    if i == Runs then QueryOutcome(Ok(()), samples)
    else
      var r := answers(t, b, query, i);
      var samples' := Timed(samples, RunScope(b, op, i), r);
      if r.Err? then
        assert RunScopes(b, op, i, 0) == [];
        QueryOutcome(r, samples')
      else
        var o := RunFrom(t, b, query, op, answers, i + 1, samples');
        RunScopesCons(b, op, i, FirstFailure(t, b, query, answers, i + 1) - (i + 1));
        o
  }

  /** `_query_from_<store>(query_type, scale)`: the store's query for the
      type, run ten times under the type's label. */
  function QueryFrom(cats: Catalogs, b: Backend, t: QueryType, scale: Option<string>, answers: Answers,
                     samples: seq<Scope>): QueryOutcome {
    RunFrom(t, b, GetQuery(cats, t, b.Service()), Label(t, scale), answers, 0, samples)
  }

  /** Ten clean runs record ten samples under the store's name and the
      type's label, only the first marked as the first query. */
  lemma QueryFromRecordsTen(cats: Catalogs, b: Backend, t: QueryType, scale: Option<string>, answers: Answers,
                            samples: seq<Scope>)
    requires forall k :: 0 <= k < Runs ==> answers(t, b, GetQuery(cats, t, b.Service()), k).Ok?
    ensures var o := QueryFrom(cats, b, t, scale, answers, samples);
      && o.result.Ok?
      && o.samples == samples + RunScopes(b, Label(t, scale), 0, Runs)
      && forall k :: 0 <= k < Runs ==>
        RunScopes(b, Label(t, scale), 0, Runs)[k] == Scope(b.DataStore(), Label(t, scale), None, Some(k == 0))
  {
  }

  /** Stages `i`, `i + 1`, ..., `n - 1` in turn, each starting from the
      samples the one before left; a stage that raises ends the run, and
      its exception is the outcome. */
  function Stages(stage: (nat, seq<Scope>) -> QueryOutcome, n: nat, i: nat, samples: seq<Scope>): QueryOutcome
    requires i <= n
    decreases n - i
  {
    if i == n then QueryOutcome(Ok(()), samples)
    else
      var o := stage(i, samples);
      if o.result.Err? then o else Stages(stage, n, i + 1, o.samples)
  }

  /** Store `bi` of the visiting order queried for one type. */
  function StoreStage(cats: Catalogs, t: QueryType, scale: Option<string>, answers: Answers): (nat, seq<Scope>) -> QueryOutcome {
    (bi: nat, s: seq<Scope>) =>
      if bi < |BackendOrder| then QueryFrom(cats, BackendOrder[bi], t, scale, answers, s) else QueryOutcome(Ok(()), s)
  }

  /** The body of the loop in `perform_queries` for one query type: the
      four stores in order. */
  function QueryStores(cats: Catalogs, t: QueryType, scale: Option<string>, answers: Answers,
                       samples: seq<Scope>): QueryOutcome {
    Stages(StoreStage(cats, t, scale, answers), |BackendOrder|, 0, samples)
  }

  /** Type `ti` of the list queried against the four stores. */
  function TypeStage(cats: Catalogs, scale: Option<string>, answers: Answers): (nat, seq<Scope>) -> QueryOutcome {
    (ti: nat, s: seq<Scope>) =>
      if ti < |QueryTypes| then QueryStores(cats, QueryTypes[ti], scale, answers, s) else QueryOutcome(Ok(()), s)
  }

  /** `perform_queries(scale)`. */
  function PerformQueries(cats: Catalogs, scale: Option<string>, answers: Answers): QueryOutcome {
    Stages(TypeStage(cats, scale, answers), |QueryTypes|, 0, [])
  }

  /** A run of stages each of which succeeds and adds its own samples
      succeeds and adds them all, in order. */
  lemma {:induction false} StagesRecord(stage: (nat, seq<Scope>) -> QueryOutcome, runs: seq<seq<Scope>>, i: nat,
                                        samples: seq<Scope>)
    requires i <= |runs|
    requires forall j: nat, s: seq<Scope> :: i <= j < |runs| ==> stage(j, s) == QueryOutcome(Ok(()), s + runs[j])
    ensures Stages(stage, |runs|, i, samples) == QueryOutcome(Ok(()), samples + Concat(runs[i..]))
    decreases |runs| - i
  {
    if i < |runs| {
      StagesRecord(stage, runs, i + 1, samples + runs[i]);
      ConcatFrom(samples, runs, i);
    } else {
      assert runs[i..] == [];
    }
  }

  /** A stage that raises ends the run right there: the stages after it
      are never entered. */
  lemma StagesStop(stage: (nat, seq<Scope>) -> QueryOutcome, n: nat, i: nat, samples: seq<Scope>)
    requires i < n && stage(i, samples).result.Err?
    ensures Stages(stage, n, i, samples) == stage(i, samples)
  {
  }

  // ---------------------------------------------------------------------
  // The plan perform_queries follows

  /** Every store answers every run of every type's query normally. */
  ghost predicate AllAnswered(cats: Catalogs, answers: Answers) {
    forall t: QueryType, b: Backend, k: nat :: k < Runs ==> answers(t, b, GetQuery(cats, t, b.Service()), k).Ok?
  }

  /** The samples of one query type: ten per store, the stores in order. */
  function TypeRuns(t: QueryType, scale: Option<string>): (runs: seq<seq<Scope>>)
    ensures |runs| == |BackendOrder|
    ensures forall bi :: 0 <= bi < |BackendOrder| ==> runs[bi] == RunScopes(BackendOrder[bi], Label(t, scale), 0, Runs)
  {
    seq(|BackendOrder|, bi requires 0 <= bi < |BackendOrder| => RunScopes(BackendOrder[bi], Label(t, scale), 0, Runs))
  }

  /** The samples `perform_queries` records when nothing raises: the types
      in order, for each the samples of its ten runs per store. */
  function PlannedSamples(scale: Option<string>): seq<Scope> {
    Concat(PlannedRuns(scale))
  }

  /** The samples of each query type in turn. */
  function PlannedRuns(scale: Option<string>): (runs: seq<seq<Scope>>)
    ensures |runs| == |QueryTypes|
    ensures forall ti :: 0 <= ti < |QueryTypes| ==> runs[ti] == Concat(TypeRuns(QueryTypes[ti], scale))
  {
    seq(|QueryTypes|, ti requires 0 <= ti < |QueryTypes| => Concat(TypeRuns(QueryTypes[ti], scale)))
  }

  /** The stores of one query type, with every run answered, succeed and
      record ten samples each, the stores in order. */
  lemma StoresFollowPlan(cats: Catalogs, t: QueryType, scale: Option<string>, answers: Answers, samples: seq<Scope>)
    requires AllAnswered(cats, answers)
    ensures QueryStores(cats, t, scale, answers, samples) == QueryOutcome(Ok(()), samples + Concat(TypeRuns(t, scale)))
  {
    var runs := TypeRuns(t, scale);
    var stage := StoreStage(cats, t, scale, answers);
    forall j: nat, s: seq<Scope> | 0 <= j < |runs|
      ensures stage(j, s) == QueryOutcome(Ok(()), s + runs[j])
    {
      QueryFromRecordsTen(cats, BackendOrder[j], t, scale, answers, s);
    }
    StagesRecord(stage, runs, 0, samples);
    assert runs[0..] == runs;
  }

  /** When every run returns, `perform_queries` records exactly the planned
      samples: the five types in order, for each the stores cloudwatch,
      elasticsearch, rds, timestream, ten runs each, labelled with the type
      and the scale, the first run of each marked as the first query. */
  lemma PerformQueriesFollowsPlan(cats: Catalogs, scale: Option<string>, answers: Answers)
    requires AllAnswered(cats, answers)
    ensures var o := PerformQueries(cats, scale, answers);
      o.result.Ok? && o.samples == PlannedSamples(scale)
  {
    var runs := PlannedRuns(scale);
    var stage := TypeStage(cats, scale, answers);
    forall j: nat, s: seq<Scope> | 0 <= j < |runs|
      ensures stage(j, s) == QueryOutcome(Ok(()), s + runs[j])
    {
      StoresFollowPlan(cats, QueryTypes[j], scale, answers, s);
    }
    StagesRecord(stage, runs, 0, []);
    assert runs[0..] == runs;
  }

  /** A run that raises ends `perform_queries`: once the cloudwatch query
      of a type raises, no later store or type is queried, so the samples
      stop at the failing run. */
  lemma FailureStopsQueries(cats: Catalogs, ti: nat, scale: Option<string>, answers: Answers, samples: seq<Scope>)
    requires ti < |QueryTypes|
    requires QueryFrom(cats, Cw, QueryTypes[ti], scale, answers, samples).result.Err?
    ensures Stages(TypeStage(cats, scale, answers), |QueryTypes|, ti, samples)
         == QueryFrom(cats, Cw, QueryTypes[ti], scale, answers, samples)
  {
    StagesStop(StoreStage(cats, QueryTypes[ti], scale, answers), |BackendOrder|, 0, samples);
    StagesStop(TypeStage(cats, scale, answers), |QueryTypes|, ti, samples);
  }
}
