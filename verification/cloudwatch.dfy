/** The log-store adapter: writing items as log events to one stream in
    chunks of 500, threading the stream's sequence token from put to put,
    and reading a stream back a page at a time.

    Every backend call is answered by an oracle indexed by the position of
    the call in the session's call trace, so a run is a pure function of
    the oracles. A message is the dictionary `json.dumps` would serialise;
    the JSON text itself is not modelled.
 */
module LogStore {
  import opened Wrappers
  import opened Records
  import opened Helpers

  /** Items per `put_log_events` request. */
  const BatchSize: nat := 500

  const ResourceNotFound := "ResourceNotFoundException"
  const InvalidSequenceToken := "InvalidSequenceTokenException"
  const AlreadyExists := "ResourceAlreadyExistsException"

  /** An error is a ClientError with the given code. */
  predicate HasCode(e: Error, code: string) {
    e.ClientError? && e.code == code
  }

  /** The `sequenceToken` argument of a put: absent, or present with a
      value that may be None. */
  datatype TokenArg = NoToken | Token(token: Option<string>)

  /** `if sequence_token is not None: kwargs["sequenceToken"] = sequence_token`. */
  function TokenArgOf(t: Option<string>): (a: TokenArg)
    ensures a.NoToken? <==> t.None?
    ensures a.Token? ==> a.token == t
  {
    if t.Some? then Token(t) else NoToken
  }

  datatype LogEvent = LogEvent(timestamp: Value, message: Record)

  datatype PutArgs = PutArgs(group: Option<string>, stream: string, events: seq<LogEvent>, token: TokenArg)

  /** One entry of `describe_log_streams`: its `logStreamName` and
      `uploadSequenceToken`, each possibly missing. */
  datatype StreamInfo = StreamInfo(name: Option<string>, uploadToken: Option<string>)

  datatype Call =
    | PutCall(args: PutArgs)
    | DescribeCall(group: Option<string>, prefix: string)
    | CreateCall(group: Option<string>, stream: string)

  /** The answers of the log store, by position of the call in the trace:
      a put's `nextSequenceToken`, a describe's `logStreams` (None when the
      key is missing) and the outcome of a create; or the error raised. */
  datatype Backend = Backend(
    put: nat -> Result<Option<string>>,
    describe: nat -> Result<Option<seq<StreamInfo>>>,
    create: nat -> Result<()>)

  /** The calls made so far and the timing samples written so far. */
  datatype Session = Session(calls: seq<Call>, samples: seq<Scope>)

  function PutScope(size: nat): Scope {
    Scope("cloudwatch_logs", "basic_write", Some(size), None)
  }

  /** The session `s` grown by later calls and samples only. */
  predicate Extends(s': Session, s: Session) {
    |s'.calls| >= |s.calls| && s'.calls[..|s.calls|] == s.calls
    && |s'.samples| >= |s.samples| && s'.samples[..|s.samples|] == s.samples
  }

  lemma ExtendsTrans(s1: Session, s2: Session, s3: Session)
    requires Extends(s2, s1) && Extends(s3, s2)
    ensures Extends(s3, s1)
  {
    assert s3.calls[..|s1.calls|] == s3.calls[..|s2.calls|][..|s1.calls|];
    assert s3.samples[..|s1.samples|] == s3.samples[..|s2.samples|][..|s1.samples|];
  }

  // ---------------------------------------------------------------------
  // Writing

  /** The result of `_put_log_events`: the put's `nextSequenceToken` or the
      error raised, the arguments as the call left them (a recovery
      overwrites their token in place), and the session after it. */
  datatype PutAttempt = PutAttempt(result: Result<Option<string>>, args: PutArgs, session: Session)

  /** The stream a describe reports first, if its name is exactly `stream`. */
  function MatchingStream(described: Option<seq<StreamInfo>>, stream: string): (m: Option<StreamInfo>)
    ensures m.Some? <==> described.Some? && |described.value| > 0 && described.value[0].name == Some(stream)
    ensures m.Some? ==> m.value == described.value[0]
  {
    if described.Some? && |described.value| > 0 && described.value[0].name == Some(stream)
    then Some(described.value[0]) else None
  }

  /** `_put_log_events(kwargs, this_batch_size)`, timed. On a stale sequence
      token the stream is described first, and the put is sent once more
      with the stream's upload token only when the first stream reported
      has exactly the requested name; otherwise the original error is
      raised again. */
  function PutLogEvents(b: Backend, args: PutArgs, size: nat, s: Session): (a: PutAttempt)
    ensures Extends(a.session, s)
    ensures a.result.Ok? ==> a.session.samples == s.samples + [PutScope(size)]
    ensures a.result.Err? ==> a.session.samples == s.samples
    ensures a.args == args || a.args == args.(token := a.args.token)
    ensures var p := |s.calls|;
      var first := b.put(p);
      && |a.session.calls| > p && a.session.calls[p] == PutCall(args)
      && (first.Ok? || !HasCode(first.error, InvalidSequenceToken) <==> |a.session.calls| == p + 1)
      && (|a.session.calls| == p + 1 ==> a.result == first && a.args == args)
      && (|a.session.calls| > p + 1 ==> a.session.calls[p + 1] == DescribeCall(args.group, args.stream))
  {
    var p := |s.calls|;
    var first := b.put(p);
    var called := s.calls + [PutCall(args)];
    var (result, args', calls) :=
      if first.Ok? || !HasCode(first.error, InvalidSequenceToken) then (first, args, called)
      else
        var described := b.describe(p + 1);
        var described' := called + [DescribeCall(args.group, args.stream)];
        if described.Err? then (Err(described.error), args, described')
        else
          var m := MatchingStream(described.value, args.stream);
          if m.Some? then
            var retry := args.(token := Token(m.value.uploadToken));
            (b.put(p + 2), retry, described' + [PutCall(retry)])
          else (Err(first.error), args, described');
    assert calls[..p] == s.calls;
    PutAttempt(result, args', Session(calls, Timed(s.samples, PutScope(size), result)))
  }

  /** The stale-token recovery of `_put_log_events`: after an
      InvalidSequenceToken answer the stream is described with the
      requested name as prefix; the put is retried with the upload token
      exactly when the first stream reported has that name, and then the
      retry's answer is the outcome; otherwise the first error is raised
      again (or the describe's own error). */
  lemma StaleTokenRecovery(b: Backend, args: PutArgs, size: nat, s: Session)
    requires var first := b.put(|s.calls|); first.Err? && HasCode(first.error, InvalidSequenceToken)
    ensures var p := |s.calls|;
      var a := PutLogEvents(b, args, size, s);
      var described := b.describe(p + 1);
      var retried := described.Ok? && MatchingStream(described.value, args.stream).Some?;
      && a.session.calls[p + 1] == DescribeCall(args.group, args.stream)
      && (retried <==> |a.session.calls| == p + 3)
      && (retried ==> a.session.calls[p + 2] == PutCall(a.args)
                      && a.args == args.(token := Token(described.value.value[0].uploadToken))
                      && a.result == b.put(p + 2))
      && (!retried ==> |a.session.calls| == p + 2 && a.args == args
                       && a.result == Err(if described.Err? then described.error else b.put(p).error))
  {
  }

  /** Every item of a chunk has a "time" key. */
  predicate AllTimed(batch: seq<Record>) {
    forall i :: 0 <= i < |batch| ==> "time" in Keys(batch[i])
  }

  /** `{"timestamp": item.pop("time"), "message": json.dumps(item)}`. */
  function EventOf(item: Record): (e: LogEvent)
    requires "time" in Keys(item)
    ensures Pop(item, "time") == Ok((e.timestamp, e.message))
  {
    LogEvent(Get(item, "time").value, Remove(item, "time"))
  }

  /** The events of a chunk, one per item in order, or the KeyError of an
      item without "time". */
  function EventsOf(batch: seq<Record>): (r: Result<seq<LogEvent>>)
    ensures r.Ok? <==> AllTimed(batch)
    ensures r.Err? ==> r.error == KeyError("time")
    ensures r.Ok? ==> |r.value| == |batch|
  {
    if AllTimed(batch) then Ok(seq(|batch|, i requires 0 <= i < |batch| && AllTimed(batch) => EventOf(batch[i])))
    else Err(KeyError("time"))
  }

  /** An event's timestamp is its item's "time" and its message is the
      item without "time", key for key. */
  lemma EventsOfItems(batch: seq<Record>, i: nat)
    requires AllTimed(batch) && i < |batch| && UniqueKeys(batch[i])
    ensures var e := EventsOf(batch).value[i];
      && Get(batch[i], "time") == Some(e.timestamp)
      && Get(e.message, "time") == None
      && (forall k :: k != "time" ==> Get(e.message, k) == Get(batch[i], k))
      && |e.message| == |batch[i]| - 1
  {
    RemoveKeepsOthers(batch[i], "time");
  }

  /** Events are made item by item, so a list of chunks yields the events
      of the whole list in order. */
  lemma EventsOfAppend(xs: seq<Record>, ys: seq<Record>)
    requires EventsOf(xs).Ok? && EventsOf(ys).Ok?
    ensures EventsOf(xs + ys) == Ok(EventsOf(xs).value + EventsOf(ys).value)
  {
    var zs := xs + ys;
    forall i | 0 <= i < |zs|
      ensures "time" in Keys(zs[i])
      ensures zs[i] == if i < |xs| then xs[i] else ys[i - |xs|]
    {
      if i < |xs| { assert zs[i] == xs[i]; } else { assert zs[i] == ys[i - |xs|]; }
    }
    assert AllTimed(zs);
    assert EventsOf(zs).value == EventsOf(xs).value + EventsOf(ys).value;
  }

  /** The recovery `write_many` applies after `_put_log_events` failed: on
      ResourceNotFound the stream is created (an AlreadyExists answer is
      tolerated, any other create error raised) and the put sent once more;
      on InvalidSequenceToken the put is sent once more with the error's
      `expectedSequenceToken`; any other error is raised. */
  function Recover(b: Backend, group: Option<string>, stream: string, a: PutAttempt, size: nat): (r: (Result<Option<string>>, Session))
    requires a.result.Err?
    ensures Extends(r.1, a.session)
    ensures var p := |a.session.calls|;
      HasCode(a.result.error, ResourceNotFound) ==>
        var created := b.create(p);
        var tolerated := created.Ok? || HasCode(created.error, AlreadyExists);
        && |r.1.calls| > p && r.1.calls[p] == CreateCall(group, stream)
        && (tolerated ==> |r.1.calls| > p + 1 && r.1.calls[p + 1] == PutCall(a.args))
        && (!tolerated ==> r == (Err(created.error), a.session.(calls := a.session.calls + [CreateCall(group, stream)])))
    ensures var p := |a.session.calls|;
      HasCode(a.result.error, InvalidSequenceToken) ==>
        |r.1.calls| > p && r.1.calls[p] == PutCall(a.args.(token := Token(a.result.error.expectedToken)))
    ensures !HasCode(a.result.error, ResourceNotFound) && !HasCode(a.result.error, InvalidSequenceToken)
      ==> r == (a.result, a.session)
  {
    var e := a.result.error;
    var p := |a.session.calls|;
    if HasCode(e, ResourceNotFound) then
      var created := b.create(p);
      var s := a.session.(calls := a.session.calls + [CreateCall(group, stream)]);
      assert Extends(s, a.session) by { assert s.calls[..p] == a.session.calls; }
      if created.Err? && !HasCode(created.error, AlreadyExists) then (Err(created.error), s)
      else
        var again := PutLogEvents(b, a.args, size, s);
        ExtendsTrans(a.session, s, again.session);
        assert again.session.calls[p] == s.calls[p] by { assert again.session.calls[..p + 1] == s.calls; }
        (again.result, again.session)
    else if HasCode(e, InvalidSequenceToken) then
      var again := PutLogEvents(b, a.args.(token := Token(e.expectedToken)), size, a.session);
      (again.result, again.session)
    else (a.result, a.session)
  }

  /** One turn of the loop of `write_many`: the chunk's events, the timed
      put with the token carried over, and the recovery from its failure;
      the outcome is the `nextSequenceToken` to carry on with or the error
      that ends the loop. */
  function WriteChunk(b: Backend, group: Option<string>, stream: string, batch: seq<Record>,
                      token: Option<string>, s: Session): (r: (Result<Option<string>>, Session))
    ensures Extends(r.1, s)
    ensures EventsOf(batch).Err? ==> r == (Err(KeyError("time")), s)
    ensures EventsOf(batch).Ok? ==>
      var args := PutArgs(group, stream, EventsOf(batch).value, TokenArgOf(token));
      && |r.1.calls| > |s.calls| && r.1.calls[|s.calls|] == PutCall(args)
      && (b.put(|s.calls|).Ok? ==> r == (b.put(|s.calls|), Session(s.calls + [PutCall(args)], s.samples + [PutScope(|batch|)])))
  {
    match EventsOf(batch)
    case Err(e) => (Err(e), s)
    case Ok(events) =>
      var a := PutLogEvents(b, PutArgs(group, stream, events, TokenArgOf(token)), |batch|, s);
      if a.result.Ok? then (a.result, a.session)
      else
        var r := Recover(b, group, stream, a, |batch|);
        ExtendsTrans(s, a.session, r.1);
        assert r.1.calls[|s.calls|] == a.session.calls[|s.calls|] by {
          assert r.1.calls[..|a.session.calls|] == a.session.calls;
        }
        r
  }

  /** What a write did: its outcome and the session after it. */
  datatype WriteOutcome = WriteOutcome(result: Result<()>, session: Session)

  /** The loop of `write_many` over its chunks, starting from the sequence
      token `token`. The first failure ends the loop; the chunks before it
      stay written. */
  function WriteBatches(b: Backend, group: Option<string>, stream: string, batches: seq<seq<Record>>,
                        token: Option<string>, s: Session): (o: WriteOutcome)
    ensures Extends(o.session, s)
    ensures |batches| == 0 ==> o == WriteOutcome(Ok(()), s)
    decreases |batches|
  {
    if |batches| == 0 then WriteOutcome(Ok(()), s)
    else
      var (r, s') := WriteChunk(b, group, stream, batches[0], token, s);
      if r.Err? then WriteOutcome(Err(r.error), s')
      else
        var o := WriteBatches(b, group, stream, batches[1..], r.value, s');
        ExtendsTrans(s, s', o.session);
        o
  }

  /** `write_many(log_stream, items)` with the log group `group`: nothing
      at all for no items, otherwise the chunks of 500 items in order,
      the first put without a sequence token. */
  function WriteMany(b: Backend, group: Option<string>, stream: string, items: seq<Record>, s: Session): (o: WriteOutcome)
    ensures |items| == 0 ==> o == WriteOutcome(Ok(()), s)
    ensures Extends(o.session, s)
  {
    if |items| == 0 then WriteOutcome(Ok(()), s)
    else WriteBatches(b, group, stream, Batches(items, BatchSize), None, s)
  }

  /** The session after the chunks when every put is accepted: one put per
      chunk, each carrying the token the previous put returned, and one
      sample per put. */
  function AcceptedSession(b: Backend, group: Option<string>, stream: string, batches: seq<seq<Record>>,
                           token: Option<string>, s: Session): Session
    requires forall k :: b.put(k).Ok?
    requires forall j :: 0 <= j < |batches| ==> EventsOf(batches[j]).Ok?
    decreases |batches|
  {
    if |batches| == 0 then s
    else
      var args := PutArgs(group, stream, EventsOf(batches[0]).value, TokenArgOf(token));
      AcceptedSession(b, group, stream, batches[1..], b.put(|s.calls|).value,
                      Session(s.calls + [PutCall(args)], s.samples + [PutScope(|batches[0]|)]))
  }

  /** When every put is accepted, the loop succeeds and leaves the session
      `AcceptedSession` describes. */
  lemma {:induction false} WriteBatchesAccepted(b: Backend, group: Option<string>, stream: string,
                                                batches: seq<seq<Record>>, token: Option<string>, s: Session)
    requires forall k :: b.put(k).Ok?
    requires forall j :: 0 <= j < |batches| ==> EventsOf(batches[j]).Ok?
    ensures WriteBatches(b, group, stream, batches, token, s) == WriteOutcome(Ok(()), AcceptedSession(b, group, stream, batches, token, s))
    decreases |batches|
  {
    if |batches| > 0 {
      var args := PutArgs(group, stream, EventsOf(batches[0]).value, TokenArgOf(token));
      var s' := Session(s.calls + [PutCall(args)], s.samples + [PutScope(|batches[0]|)]);
      assert WriteChunk(b, group, stream, batches[0], token, s) == (b.put(|s.calls|), s');
      WriteBatchesAccepted(b, group, stream, batches[1..], b.put(|s.calls|).value, s');
    }
  }

  /** In `AcceptedSession` each chunk is sent exactly once, in order, with
      its own events; the first put carries `token` as given and every later
      put the `nextSequenceToken` of the put before it; and each put writes
      one timing sample for its chunk. */
  lemma AcceptedSessionPuts(b: Backend, group: Option<string>, stream: string,
                             batches: seq<seq<Record>>, token: Option<string>, s: Session)
    requires forall k :: b.put(k).Ok?
    requires forall j :: 0 <= j < |batches| ==> EventsOf(batches[j]).Ok?
    ensures |AcceptedSession(b, group, stream, batches, token, s).calls| == |s.calls| + |batches|
    ensures |AcceptedSession(b, group, stream, batches, token, s).samples| == |s.samples| + |batches|
    ensures AcceptedSession(b, group, stream, batches, token, s).calls[..|s.calls|] == s.calls
    ensures AcceptedSession(b, group, stream, batches, token, s).samples[..|s.samples|] == s.samples
    ensures |batches| > 0 ==>
      AcceptedSession(b, group, stream, batches, token, s).calls[|s.calls|] == PutCall(PutArgs(group, stream, EventsOf(batches[0]).value, TokenArgOf(token)))
    ensures forall i :: 1 <= i < |batches| ==>
      AcceptedSession(b, group, stream, batches, token, s).calls[|s.calls| + i] == PutCall(PutArgs(group, stream, EventsOf(batches[i]).value, TokenArgOf(b.put(|s.calls| + i - 1).value)))
    ensures forall i :: 0 <= i < |batches| ==> AcceptedSession(b, group, stream, batches, token, s).samples[|s.samples| + i] == PutScope(|batches[i]|)
  {
    AcceptedSessionCalls(b, group, stream, batches, token, s);
    AcceptedSessionSamples(b, group, stream, batches, token, s);
  }

  /** The puts of `AcceptedSession`, after those already in the session. */
  lemma {:induction false} AcceptedSessionCalls(b: Backend, group: Option<string>, stream: string,
                                                batches: seq<seq<Record>>, token: Option<string>, s: Session)
    requires forall k :: b.put(k).Ok?
    requires forall j :: 0 <= j < |batches| ==> EventsOf(batches[j]).Ok?
    ensures |AcceptedSession(b, group, stream, batches, token, s).calls| == |s.calls| + |batches|
    ensures AcceptedSession(b, group, stream, batches, token, s).calls[..|s.calls|] == s.calls
    ensures |batches| > 0 ==>
      AcceptedSession(b, group, stream, batches, token, s).calls[|s.calls|] == PutCall(PutArgs(group, stream, EventsOf(batches[0]).value, TokenArgOf(token)))
    ensures forall i :: 1 <= i < |batches| ==>
      AcceptedSession(b, group, stream, batches, token, s).calls[|s.calls| + i] == PutCall(PutArgs(group, stream, EventsOf(batches[i]).value, TokenArgOf(b.put(|s.calls| + i - 1).value)))
    decreases |batches|
  {
    if |batches| > 0 {
      var p := |s.calls|;
      var args := PutArgs(group, stream, EventsOf(batches[0]).value, TokenArgOf(token));
      var s' := Session(s.calls + [PutCall(args)], s.samples + [PutScope(|batches[0]|)]);
      var next := b.put(p).value;
      var rest := batches[1..];
      assert forall j :: 0 <= j < |rest| ==> rest[j] == batches[j + 1];
      AcceptedSessionCalls(b, group, stream, rest, next, s');
      var o := AcceptedSession(b, group, stream, batches, token, s);
      assert o == AcceptedSession(b, group, stream, rest, next, s');
      forall i | 1 <= i < |batches|
        ensures o.calls[p + i]
          == PutCall(PutArgs(group, stream, EventsOf(batches[i]).value, TokenArgOf(b.put(p + i - 1).value)))
      {
        assert o.calls[p + i] == o.calls[(p + 1) + (i - 1)];
      }
      assert o.calls[..p + 1] == s'.calls;
      assert o.calls[..p] == s'.calls[..p];
    }
  }

  /** The samples of `AcceptedSession`: one per put, after those already in
      the session. */
  lemma {:induction false} AcceptedSessionSamples(b: Backend, group: Option<string>, stream: string,
                                                  batches: seq<seq<Record>>, token: Option<string>, s: Session)
    requires forall k :: b.put(k).Ok?
    requires forall j :: 0 <= j < |batches| ==> EventsOf(batches[j]).Ok?
    ensures |AcceptedSession(b, group, stream, batches, token, s).samples| == |s.samples| + |batches|
    ensures AcceptedSession(b, group, stream, batches, token, s).samples[..|s.samples|] == s.samples
    ensures forall i :: 0 <= i < |batches| ==> AcceptedSession(b, group, stream, batches, token, s).samples[|s.samples| + i] == PutScope(|batches[i]|)
    decreases |batches|
  {
    if |batches| > 0 {
      var args := PutArgs(group, stream, EventsOf(batches[0]).value, TokenArgOf(token));
      var s' := Session(s.calls + [PutCall(args)], s.samples + [PutScope(|batches[0]|)]);
      var next := b.put(|s.calls|).value;
      var rest := batches[1..];
      assert forall j :: 0 <= j < |rest| ==> rest[j] == batches[j + 1];
      AcceptedSessionSamples(b, group, stream, rest, next, s');
      var o := AcceptedSession(b, group, stream, batches, token, s);
      assert o == AcceptedSession(b, group, stream, rest, next, s');
      forall i | 1 <= i < |batches|
        ensures o.samples[|s.samples| + i] == PutScope(|batches[i]|)
      {
        assert o.samples[|s.samples| + i] == o.samples[(|s.samples| + 1) + (i - 1)];
      }
      assert o.samples[..|s.samples| + 1] == s'.samples;
      assert o.samples[..|s.samples|] == s'.samples[..|s.samples|];
    }
  }

  /** Every chunk of a list of items that all have "time" has its events. */
  lemma {:induction false} ChunksHaveEvents(batches: seq<seq<Record>>)
    requires AllTimed(Concat(batches))
    ensures forall j :: 0 <= j < |batches| ==> EventsOf(batches[j]).Ok?
    decreases |batches|
  {
    if |batches| > 0 {
      ConcatCons(batches[0], batches[1..]);
      assert [batches[0]] + batches[1..] == batches;
      assert forall i :: 0 <= i < |batches[0]| ==> Concat(batches)[i] == batches[0][i];
      assert forall i :: 0 <= i < |Concat(batches[1..])| ==> Concat(batches)[|batches[0]| + i] == Concat(batches[1..])[i];
      ChunksHaveEvents(batches[1..]);
      assert forall j :: 1 <= j < |batches| ==> batches[j] == batches[1..][j - 1];
    }
  }

  /** The events of a sequence of put calls, one call after the other. */
  function PutEvents(calls: seq<Call>): seq<LogEvent>
    decreases |calls|
  {
    if |calls| == 0 then []
    else (if calls[0].PutCall? then calls[0].args.events else []) + PutEvents(calls[1..])
  }

  lemma {:induction false} PutEventsOfChunks(puts: seq<Call>, batches: seq<seq<Record>>)
    requires |puts| == |batches|
    requires forall j :: 0 <= j < |batches| ==> EventsOf(batches[j]).Ok?
    requires forall i :: 0 <= i < |batches| ==> puts[i].PutCall? && puts[i].args.events == EventsOf(batches[i]).value
    ensures EventsOf(Concat(batches)).Ok?
    ensures PutEvents(puts) == EventsOf(Concat(batches)).value
    decreases |batches|
  {
    if |batches| > 0 {
      ConcatCons(batches[0], batches[1..]);
      assert [batches[0]] + batches[1..] == batches;
      PutEventsOfChunks(puts[1..], batches[1..]);
      EventsOfAppend(batches[0], Concat(batches[1..]));
    } else {
      assert EventsOf([]) == Ok([]);
    }
  }

  /** When every put is accepted, `write_many` sends one put per chunk of
      500 items, the first without a sequence token, and the events of the
      puts, in order, are those of the items in order. */
  lemma WriteManyAllAccepted(b: Backend, group: Option<string>, stream: string, items: seq<Record>, s: Session)
    requires forall k :: b.put(k).Ok?
    requires AllTimed(items)
    requires |items| > 0
    ensures var o := WriteMany(b, group, stream, items, s);
      && o.result.Ok?
      && |o.session.calls| == |s.calls| + (|items| + BatchSize - 1) / BatchSize
      && o.session.calls[|s.calls|] == PutCall(o.session.calls[|s.calls|].args)
      && o.session.calls[|s.calls|].args.token == NoToken
      && EventsOf(items).Ok?
      && PutEvents(o.session.calls[|s.calls|..]) == EventsOf(items).value
  {
    var batches := Batches(items, BatchSize);
    BatchesConcat(items, BatchSize);
    BatchesCount(items, BatchSize);
    ChunksHaveEvents(batches);
    WriteBatchesAccepted(b, group, stream, batches, None, s);
    AcceptedSessionPuts(b, group, stream, batches, None, s);
    var o := WriteMany(b, group, stream, items, s);
    var a := AcceptedSession(b, group, stream, batches, None, s);
    assert o == WriteOutcome(Ok(()), a);
    var puts := a.calls[|s.calls|..];
    forall i | 0 <= i < |batches|
      ensures puts[i].PutCall? && puts[i].args.events == EventsOf(batches[i]).value
    {
      assert puts[i] == a.calls[|s.calls| + i];
    }
    PutEventsOfChunks(puts, batches);
  }

  /** A put answered ResourceNotFound creates the stream and sends the
      same put once more, unless the create fails with anything but
      AlreadyExists, which is raised without a second put; when the second
      put is answered without a stale token, its answer ends the chunk. */
  lemma StreamCreatedOnce(b: Backend, group: Option<string>, stream: string, batch: seq<Record>,
                          token: Option<string>, s: Session)
    requires EventsOf(batch).Ok?
    requires var first := b.put(|s.calls|); first.Err? && HasCode(first.error, ResourceNotFound)
    ensures var p := |s.calls|;
      var r := WriteChunk(b, group, stream, batch, token, s);
      var args := PutArgs(group, stream, EventsOf(batch).value, TokenArgOf(token));
      var created := b.create(p + 1);
      var tolerated := created.Ok? || HasCode(created.error, AlreadyExists);
      && |r.1.calls| >= p + 2
      && r.1.calls[p] == PutCall(args) && r.1.calls[p + 1] == CreateCall(group, stream)
      && (tolerated ==> |r.1.calls| > p + 2 && r.1.calls[p + 2] == PutCall(args))
      && (tolerated && (b.put(p + 2).Ok? || !HasCode(b.put(p + 2).error, InvalidSequenceToken)) ==>
            |r.1.calls| == p + 3 && r.0 == b.put(p + 2))
      && (!tolerated ==> r == (Err(created.error), Session(s.calls + [PutCall(args), CreateCall(group, stream)], s.samples)))
  {
    var p := |s.calls|;
    var args := PutArgs(group, stream, EventsOf(batch).value, TokenArgOf(token));
    var a := PutLogEvents(b, args, |batch|, s);
    assert a == PutAttempt(b.put(p), args, Session(s.calls + [PutCall(args)], s.samples));
    assert s.calls + [PutCall(args)] + [CreateCall(group, stream)] == s.calls + [PutCall(args), CreateCall(group, stream)];
  }

  /** After a stale token that describing the stream cannot repair, the put
      is sent a third time with the `expectedSequenceToken` of the error. */
  lemma ExpectedTokenFallback(b: Backend, group: Option<string>, stream: string, batch: seq<Record>,
                              token: Option<string>, s: Session)
    requires EventsOf(batch).Ok?
    requires var first := b.put(|s.calls|); first.Err? && HasCode(first.error, InvalidSequenceToken)
    requires var described := b.describe(|s.calls| + 1);
      described.Ok? && MatchingStream(described.value, stream).None?
    ensures var p := |s.calls|;
      var r := WriteChunk(b, group, stream, batch, token, s);
      var args := PutArgs(group, stream, EventsOf(batch).value, TokenArgOf(token));
      && |r.1.calls| > p + 2
      && r.1.calls[p] == PutCall(args)
      && r.1.calls[p + 1] == DescribeCall(group, stream)
      && r.1.calls[p + 2] == PutCall(args.(token := Token(b.put(p).error.expectedToken)))
  {
    var p := |s.calls|;
    var args := PutArgs(group, stream, EventsOf(batch).value, TokenArgOf(token));
    var a := PutLogEvents(b, args, |batch|, s);
    assert a == PutAttempt(b.put(p), args, Session(s.calls + [PutCall(args), DescribeCall(group, stream)], s.samples));
  }

  /** Any other error of a put ends `write_many` at once: no recovery call,
      no later chunk, and the calls before it are kept. */
  lemma OtherErrorAborts(b: Backend, group: Option<string>, stream: string, batches: seq<seq<Record>>,
                         token: Option<string>, s: Session)
    requires |batches| > 0 && EventsOf(batches[0]).Ok?
    requires var first := b.put(|s.calls|);
      first.Err? && !HasCode(first.error, ResourceNotFound) && !HasCode(first.error, InvalidSequenceToken)
    ensures WriteBatches(b, group, stream, batches, token, s)
      == WriteOutcome(Err(b.put(|s.calls|).error),
                      Session(s.calls + [PutCall(PutArgs(group, stream, EventsOf(batches[0]).value, TokenArgOf(token)))], s.samples))
  {
    var args := PutArgs(group, stream, EventsOf(batches[0]).value, TokenArgOf(token));
    var a := PutLogEvents(b, args, |batches[0]|, s);
    assert a == PutAttempt(b.put(|s.calls|), args, Session(s.calls + [PutCall(args)], s.samples));
  }

  // ---------------------------------------------------------------------
  // Reading

  /** The arguments of `get_log_events`. */
  datatype GetArgs = GetArgs(group: Option<string>, stream: string, limit: int, nextToken: Option<string>, startFromHead: bool)

  /** A `get_log_events` response: its decoded messages (None when the
      "events" key is missing) and its forward and backward tokens. */
  datatype EventsPage = EventsPage(events: Option<seq<Record>>, nextForward: Option<string>, nextBackward: Option<string>)

  /** The items of a page with the cursors to the pages before and after it. */
  datatype Page = Page(items: seq<Record>, prev: Option<string>, next: Option<string>)

  /** The request `get_many` sends. */
  function GetRequest(group: Option<string>, stream: string, pageSize: int, cursor: Option<string>, direction: string): (a: GetArgs)
    ensures a.startFromHead <==> direction == "next"
    ensures a.nextToken == cursor && a.limit == pageSize && a.stream == stream && a.group == group
  {
    GetArgs(group, stream, pageSize, cursor, direction == "next")
  }

  /** `get_many(log_stream, page_size, page_cursor, page_direction)` given
      the answer to its request. A cursor equal to the one passed in means
      there is no further page in that direction, so it is returned as None. */
  function GetMany(cursor: Option<string>, direction: string, reply: Result<EventsPage>): (r: Result<Page>)
    ensures reply.Err? ==> (r == Ok(Page([], None, None)) <==> HasCode(reply.error, ResourceNotFound))
    ensures reply.Err? && !HasCode(reply.error, ResourceNotFound) ==> r == Err(reply.error)
    ensures reply.Ok? ==> (r.Ok? <==> reply.value.events.Some?)
    ensures reply.Ok? && r.Ok? ==> r.value.items == reply.value.events.value
    ensures reply.Ok? && r.Ok? ==>
      (r.value.next == (if direction == "next" && cursor == reply.value.nextForward then None else reply.value.nextForward))
    ensures reply.Ok? && r.Ok? ==>
      (r.value.prev == (if direction == "prev" && cursor == reply.value.nextBackward then None else reply.value.nextBackward))
  {
    match reply
    case Err(e) =>
      if HasCode(e, ResourceNotFound) then Ok(Page([], None, None)) else Err(e)
    case Ok(page) =>
      if page.events.None? then Err(TypeError("'NoneType' object is not iterable"))
      else
        var next := if direction == "next" && cursor == page.nextForward then None else page.nextForward;
        var prev := if direction == "prev" && cursor == page.nextBackward then None else page.nextBackward;
        Ok(Page(page.events.value, prev, next))
  }

  /** Paging forwards ends where the store hands back the cursor it was
      given: the next cursor is None exactly then or when the store gives
      none, and otherwise it is the store's forward token, which differs
      from the cursor passed in. The backward cursor is passed through. */
  lemma ForwardPagingEnds(cursor: Option<string>, page: EventsPage)
    requires page.events.Some?
    ensures var r := GetMany(cursor, "next", Ok(page));
      && r.Ok?
      && (r.value.next.None? <==> page.nextForward.None? || page.nextForward == cursor)
      && (r.value.next.Some? ==> r.value.next == page.nextForward && r.value.next != cursor)
      && r.value.prev == page.nextBackward
  {
  }

  /** The arguments of `filter_log_events`. */
  datatype FilterArgs = FilterArgs(group: Option<string>, streams: seq<string>, pattern: string, limit: int, nextToken: Option<string>)

  /** A `filter_log_events` response: its decoded messages and its `nextToken`. */
  datatype FilterPage = FilterPage(events: Option<seq<Record>>, nextToken: Option<string>)

  /** The request `search` sends: the one stream, the pattern and the page size. */
  function SearchRequest(group: Option<string>, stream: string, term: string, pageSize: int, cursor: Option<string>): (a: FilterArgs)
    ensures a.streams == [stream] && a.pattern == term && a.limit == pageSize && a.nextToken == cursor
  {
    FilterArgs(group, [stream], term, pageSize, cursor)
  }

  /** `search(log_stream, search_term, page_size, page_cursor)` given the
      answer to its request: the matching items and the store's next-page
      token; a missing stream is an empty result with no cursor. */
  function Search(reply: Result<FilterPage>): (r: Result<(seq<Record>, Option<string>)>)
    ensures reply.Err? ==> (r == Ok(([], None)) <==> HasCode(reply.error, ResourceNotFound))
    ensures reply.Err? && !HasCode(reply.error, ResourceNotFound) ==> r == Err(reply.error)
    ensures reply.Ok? ==> (r.Ok? <==> reply.value.events.Some?)
    ensures reply.Ok? && r.Ok? ==> r.value == (reply.value.events.value, reply.value.nextToken)
  {
    match reply
    case Err(e) => if HasCode(e, ResourceNotFound) then Ok(([], None)) else Err(e)
    case Ok(page) =>
      if page.events.None? then Err(TypeError("'NoneType' object is not iterable"))
      else Ok((page.events.value, page.nextToken))
  }

  /** `search` and `get_many` read a reply alike. A missing group or
      stream reads as no items and no cursor, any other error propagates,
      and a page's items are its messages. */
  lemma SearchLikeGetMany(cursor: Option<string>, direction: string, e: Error, fp: FilterPage, ep: EventsPage)
    requires fp.events == ep.events
    ensures Search(Err(e)).Ok? <==> GetMany(cursor, direction, Err(e)).Ok?
    ensures Search(Err(e)).Ok? ==>
      Search(Err(e)).value == ([], None) && GetMany(cursor, direction, Err(e)).value == Page([], None, None)
    ensures Search(Err(e)).Err? ==> Search(Err(e)).error == GetMany(cursor, direction, Err(e)).error == e
    ensures Search(Ok(fp)).Ok? <==> GetMany(cursor, direction, Ok(ep)).Ok?
    ensures Search(Ok(fp)).Ok? ==> Search(Ok(fp)).value.0 == GetMany(cursor, direction, Ok(ep)).value.items
  {
  }

  /** `search` as written: src/cloudwatch.py:164 stores a given cursor as
      the one-element tuple `(page_cursor,)`. The client's parameter
      validation wants a string there, so it raises before any request is
      sent, and the store's `answer` is never asked. */
  function SearchAsWritten(group: Option<string>, stream: string, term: string, pageSize: int, cursor: Option<string>,
                           answer: FilterArgs -> Result<FilterPage>): (r: Result<(seq<Record>, Option<string>)>)
    ensures cursor.Some? ==> r == Err(ParamValidationError("nextToken"))
  {
    if cursor.Some? then Err(ParamValidationError("nextToken"))
    else Search(answer(SearchRequest(group, stream, term, pageSize, None)))
  }

  /** `search` as evidently intended: the cursor is passed on as the
      request's `nextToken`, so it fails only when the store's reply does. */
  function SearchPage(group: Option<string>, stream: string, term: string, pageSize: int, cursor: Option<string>,
                      answer: FilterArgs -> Result<FilterPage>): (r: Result<(seq<Record>, Option<string>)>)
    ensures r.Err? ==> var reply := answer(SearchRequest(group, stream, term, pageSize, cursor));
      reply.Err? || reply.value.events.None?
  {
    Search(answer(SearchRequest(group, stream, term, pageSize, cursor)))
  }

  /** The discrepancy: without a cursor both versions agree, but the cursor
      a first search hands back can never be used. The version as written
      rejects every cursor, so where the store has a page after the cursor
      the intended search reads it and the written one raises. */
  lemma SecondSearchPageUnreachable(group: Option<string>, stream: string, term: string, pageSize: int,
                                    answer: FilterArgs -> Result<FilterPage>, cursor: Option<string>)
    ensures SearchAsWritten(group, stream, term, pageSize, None, answer) == SearchPage(group, stream, term, pageSize, None, answer)
    ensures var first := SearchAsWritten(group, stream, term, pageSize, None, answer);
      first.Ok? && first.value.1.Some? ==>
        SearchAsWritten(group, stream, term, pageSize, first.value.1, answer) == Err(ParamValidationError("nextToken"))
    ensures var reply := answer(SearchRequest(group, stream, term, pageSize, cursor));
      cursor.Some? && reply.Ok? && reply.value.events.Some? ==>
        && SearchPage(group, stream, term, pageSize, cursor, answer).Ok?
        && SearchAsWritten(group, stream, term, pageSize, cursor, answer).Err?
  {
  }

  /** The intended paging: the cursor a search returns is the `nextToken`
      of the next request, so the next call reads exactly the store's page
      after it, with the same stream, pattern and page size. */
  lemma SearchResumesAtCursor(group: Option<string>, stream: string, term: string, pageSize: int,
                              cursor: Option<string>, answer: FilterArgs -> Result<FilterPage>)
    ensures var first := SearchPage(group, stream, term, pageSize, cursor, answer);
      first.Ok? ==>
        && (first.value.1.Some? ==> answer(SearchRequest(group, stream, term, pageSize, cursor)).value.nextToken == first.value.1)
        && SearchPage(group, stream, term, pageSize, first.value.1, answer)
           == Search(answer(FilterArgs(group, [stream], term, pageSize, first.value.1)))
  {
  }
}
