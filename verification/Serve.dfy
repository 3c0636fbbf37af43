/** One client request from the first dispatch to the last report: the retry loop of
    backend/pipeline/pipeline.go, around the attempts of `Bridging`.

    Everything outside is a script: what the dispatcher answers, what the upstream delivers,
    whether the client still takes bytes, and the clock.  `Session` is the state of one
    request; every method is proved for every script to leave exactly the response and the
    record that the functions here describe. */
module Serving {
  import opened Ir
  import opened Aggregate
  import opened Collector
  import opened Replay
  import opened Bridging
  import opened Seqs

  // ----- the clock -----

  ghost predicate InOrder(env: World, k: nat) {
    var a := env.attempts(k);
    && a.dispatchStart <= a.dispatchEnd <= a.upstreamStart <= a.upstreamEnd
    && a.upstreamEnd <= env.attempts(k + 1).dispatchStart && a.upstreamEnd <= env.endAfter(k + 1)
  }

  /** The clock never runs backwards. */
  ghost predicate Steady(env: World) {
    env.start <= env.attempts(0).dispatchStart && forall k: nat :: InOrder(env, k)
  }

  const NANOS_PER_MILLI := 1000000

  function Millis(d: int): int
    requires d >= 0
  { d / NANOS_PER_MILLI }

  lemma MillisAdd(a: int, b: int)
    requires a >= 0 && b >= 0
    ensures Millis(a) + Millis(b) <= Millis(a + b)
  {}

  // ----- the record -----

  datatype Trace = Trace(n: nat, modelId: Option<string>, outcome: Outcome, dispatchMS: int, upstreamMS: int)

  datatype Report = Report(attempt: nat, modelId: string, outcome: Outcome)

  function TotalDispatch(trail: seq<Trace>): int {
    if trail == [] then 0 else TotalDispatch(trail[..|trail| - 1]) + trail[|trail| - 1].dispatchMS
  }

  function TotalUpstream(trail: seq<Trace>): int {
    if trail == [] then 0 else TotalUpstream(trail[..|trail| - 1]) + trail[|trail| - 1].upstreamMS
  }

  /** The models tried so far, in order. */
  function Models(trail: seq<Trace>): seq<string> {
    if trail == [] then []
    else
      var t := trail[|trail| - 1];
      Models(trail[..|trail| - 1]) + (if t.modelId.Some? then [t.modelId.value] else [])
  }

  /** One report per attempt that had a target. */
  function Reports(trail: seq<Trace>): seq<Report> {
    if trail == [] then []
    else
      var t := trail[|trail| - 1];
      Reports(trail[..|trail| - 1]) +
      (if t.modelId.Some? then [Report(|trail| - 1, t.modelId.value, t.outcome)] else [])
  }

  // ----- what a request comes to -----

  datatype Setup = Setup(stream: bool, maxAttempts: int, hasReporter: bool, env: World) {
    function Limit(): nat { if maxAttempts > 1 then maxAttempts else 1 }
  }

  function ClientOf(q: Setup, k: nat): Client { Client(k, q.stream, q.env) }

  /** Attempt `k` failed in a way that lets another target be tried. */
  predicate Retries(q: Setup, k: nat) {
    q.env.attempts(k).dispatchError.None? && MayRetry(Attempted(ClientOf(q, k)).res)
  }

  /** How many attempts are made once `k` have failed: up to the first that ends the request,
      or the limit. */
  function Needed(q: Setup, k: nat): (n: nat)
    requires k < q.Limit()
    ensures k < n <= q.Limit()
    decreases q.Limit() - k
  {
    if k + 1 < q.Limit() && Retries(q, k) then Needed(q, k + 1) else k + 1
  }

  function DispatchTime(env: World, k: nat): int
    requires InOrder(env, k)
  {
    Millis(env.attempts(k).dispatchEnd - env.attempts(k).dispatchStart)
  }

  /** An attempt that cannot be prepared never reaches the upstream. */
  function UpstreamTime(env: World, k: nat): int
    requires InOrder(env, k)
  {
    var a := env.attempts(k);
    if a.dispatchError.Some? || a.prepareError.Some? then 0 else Millis(a.upstreamEnd - a.upstreamStart)
  }

  /** How attempt `k` is recorded.  A last failure that would have been retried is not called
      retrying. */
  function OutcomeOf(q: Setup, k: nat): Outcome {
    if q.env.attempts(k).dispatchError.Some? then Abnormal
    else
      var outcome := Attempted(ClientOf(q, k)).outcome;
      if k + 1 == q.Limit() && Retries(q, k) then Downgrade(outcome) else outcome
  }

  function TraceOf(q: Setup, k: nat): Trace
    requires InOrder(q.env, k)
  {
    var a := q.env.attempts(k);
    Trace(k + 1, if a.dispatchError.Some? then None else Some(a.modelId), OutcomeOf(q, k),
          DispatchTime(q.env, k), UpstreamTime(q.env, k))
  }

  /** The books of a request: the trail, the models each dispatch was told of, the models
      tried, the time spent, and the reports due. */
  datatype Books = Books(
    trail: seq<Trace>, asked: seq<seq<string>>, models: seq<string>,
    dispatchMS: int, upstreamMS: int, reports: seq<Report>)

  const NO_BOOKS := Books([], [], [], 0, 0, [])

  function Enter(b: Books, t: Trace): Books {
    var model := if t.modelId.Some? then [t.modelId.value] else [];
    Books(b.trail + [t], b.asked + [b.models], b.models + model,
          b.dispatchMS + t.dispatchMS, b.upstreamMS + t.upstreamMS,
          b.reports + (if t.modelId.Some? then [Report(|b.trail|, t.modelId.value, t.outcome)] else []))
  }

  function BooksOf(q: Setup, k: nat): (b: Books)
    requires Steady(q.env)
    ensures |b.trail| == k && |b.reports| <= k
  {
    if k == 0 then NO_BOOKS else Enter(BooksOf(q, k - 1), TraceOf(q, k - 1))
  }

  /** Each dispatch was told of exactly the models tried before it, in order; the times are the
      sums over the trail; and the reports are those of the attempts that had a target. */
  ghost predicate AddsUp(b: Books) {
    && |b.asked| == |b.trail| && (forall i :: 0 <= i < |b.trail| ==> b.asked[i] == Models(b.trail[..i]))
    && b.models == Models(b.trail) && b.reports == Reports(b.trail)
    && b.dispatchMS == TotalDispatch(b.trail) && b.upstreamMS == TotalUpstream(b.trail)
  }

  lemma EnterAddsUp(b: Books, t: Trace)
    requires AddsUp(b)
    ensures AddsUp(Enter(b, t))
  {
    var b' := Enter(b, t);
    assert b'.trail[..|b.trail|] == b.trail;
    forall i | 0 <= i < |b'.trail| ensures b'.asked[i] == Models(b'.trail[..i]) {
      if i < |b.trail| { assert b'.trail[..i] == b.trail[..i]; }
    }
  }

  lemma {:induction false} BooksAddUp(q: Setup, k: nat)
    requires Steady(q.env)
    ensures AddsUp(BooksOf(q, k))
  {
    if k == 0 {
    } else {
      BooksAddUp(q, k - 1);
      EnterAddsUp(BooksOf(q, k - 1), TraceOf(q, k - 1));
    }
  }

  /** The trail has one entry per attempt, numbered from 1. */
  lemma {:induction false} TrailAt(q: Setup, k: nat, i: nat)
    requires Steady(q.env) && i < k
    ensures BooksOf(q, k).trail[i] == TraceOf(q, i) && BooksOf(q, k).trail[i].n == i + 1
  {
    if i < k - 1 { TrailAt(q, k - 1, i); }
  }

  /** What the client has after `k` attempts of which the last one ends the request: what that
      attempt wrote if it got so far, and an error otherwise. */
  function Answer(q: Setup, k: nat): Wire
    requires k > 0
  {
    var c := ClientOf(q, k - 1);
    var e := Attempted(c);
    if q.env.attempts(k - 1).dispatchError.None? && (e.res.err.None? || e.res.committed) then e.wire
    else Failed(BLANK, c)
  }

  lemma NoTargetMeans(q: Setup, k: nat)
    requires InOrder(q.env, k) && q.env.attempts(k).dispatchError.Some?
    ensures TraceOf(q, k) == Trace(k + 1, None, Abnormal, DispatchTime(q.env, k), 0)
    ensures Answer(q, k + 1) == Failed(BLANK, ClientOf(q, k)) && !Retries(q, k)
  {}

  lemma ExhaustedMeans(q: Setup, k: nat)
    requires Retries(q, k)
    ensures Answer(q, k + 1) == Failed(BLANK, ClientOf(q, k))
  {}

  lemma NeededStep(q: Setup, k: nat)
    requires k < q.Limit()
    ensures Needed(q, k) == if k + 1 < q.Limit() && Retries(q, k) then Needed(q, k + 1) else k + 1
  {}

  lemma RetryLeavesNothing(q: Setup, k: nat)
    requires q.env.attempts(k).dispatchError.None?
    ensures var e := Attempted(ClientOf(q, k)); e.res.err.Some? && !e.res.committed ==> e.wire == BLANK
  {
    AttemptIsFair(ClientOf(q, k));
  }

  lemma {:induction false} NeededBounds(q: Setup, k: nat)
    requires k < q.Limit()
    ensures forall i :: k <= i < Needed(q, k) - 1 ==> Retries(q, i)
    ensures Needed(q, k) < q.Limit() ==> !Retries(q, Needed(q, k) - 1)
    decreases q.Limit() - k
  {
    if k + 1 < q.Limit() && Retries(q, k) { NeededBounds(q, k + 1); }
  }

  /** Attempt `k` had a target and failed before anything was committed, with an error that may go
      away and that leaves no doubt that the upstream did nothing. */
  predicate FailedSafely(q: Setup, k: nat) {
    var r := Attempted(ClientOf(q, k)).res;
    && q.env.attempts(k).dispatchError == None
    && r.err.Some? && !r.committed && r.err.value.retryable && !r.err.value.sideEffectRisk
  }

  /** Attempt `k` succeeded, had no target, was committed, or failed with an error that will not go
      away or may have left something behind. */
  predicate EndsRequest(q: Setup, k: nat) {
    var r := Attempted(ClientOf(q, k)).res;
    || q.env.attempts(k).dispatchError.Some?
    || r.err.None? || r.committed || !r.err.value.retryable || r.err.value.sideEffectRisk
  }

  /** One attempt at least, and more only within the limit; every attempt but the last failed safely,
      and below the limit the last one ended the request. */
  ghost predicate TriedWhileSafe(q: Setup, k: nat) {
    && k >= 1 && (k > 1 ==> k <= q.maxAttempts)
    && (forall i :: 0 <= i < k - 1 ==> FailedSafely(q, i))
    && (k < q.maxAttempts ==> EndsRequest(q, k - 1))
  }

  lemma EndsUnlessSafe(q: Setup, k: nat)
    ensures EndsRequest(q, k) <==> !FailedSafely(q, k)
  {}

  /** There is only one number of attempts like that. */
  lemma TriedWhileSafeOnce(q: Setup, j: nat, k: nat)
    requires TriedWhileSafe(q, j) && TriedWhileSafe(q, k)
    ensures j == k
  {
    EndsUnlessSafe(q, j - 1);
    EndsUnlessSafe(q, k - 1);
  }

  lemma NeededWhileSafe(q: Setup)
    ensures TriedWhileSafe(q, Needed(q, 0))
  {
    NeededBounds(q, 0);
    var k := Needed(q, 0);
    forall i | 0 <= i < k - 1 ensures FailedSafely(q, i) { assert Retries(q, i); }
  }

  lemma AskedPerAttempt(q: Setup)
    requires Steady(q.env)
    ensures var k := Needed(q, 0);
      TriedWhileSafe(q, k) && |BooksOf(q, k).trail| == |BooksOf(q, k).asked| == k && AddsUp(BooksOf(q, k))
  {
    NeededWhileSafe(q);
    BooksAddUp(q, Needed(q, 0));
  }

  /** For every request: another attempt is made exactly when the one before it wrote nothing
      and failed with a retryable error without risk of side effects, and the limit is not
      reached; the response header goes out once, or not at all when the client left first;
      and everything the client has comes from the last attempt. */
  lemma ServedMeans(q: Setup)
    ensures var k := Needed(q, 0);
      && TriedWhileSafe(q, k)
      && (forall i :: 0 <= i < k - 1 ==> Attempted(ClientOf(q, i)).wire == BLANK)
      && var w := Answer(q, k);
         && OnlyFrom(w.body, k - 1) && w.headers <= 1
         && (w.headers == 0 ==> w.left && w.body == [])
  {
    NeededWhileSafe(q);
    var k := Needed(q, 0);
    forall i | 0 <= i < k - 1 ensures Attempted(ClientOf(q, i)).wire == BLANK {
      SafelyLeavesNothing(q, i);
    }
    AnswerIsTheLast(q, k);
  }

  lemma SafelyLeavesNothing(q: Setup, i: nat)
    requires FailedSafely(q, i)
    ensures Attempted(ClientOf(q, i)).wire == BLANK
  {
    RetryLeavesNothing(q, i);
  }

  lemma AnswerIsTheLast(q: Setup, k: nat)
    requires k > 0
    ensures var w := Answer(q, k);
      OnlyFrom(w.body, k - 1) && w.headers <= 1 && (w.headers == 0 ==> w.left && w.body == [])
  {
    AttemptIsFair(ClientOf(q, k - 1));
  }

  /** A request that ends before anything of it was committed is answered with its error, unless the
      client left; any other leaves the client what its last attempt wrote. */
  lemma AnsweredAnyway(q: Setup)
    ensures var k, w := Needed(q, 0), Answer(q, Needed(q, 0));
      var e := Attempted(ClientOf(q, k - 1));
      if q.env.attempts(k - 1).dispatchError == None && (e.res.err == None || e.res.committed) then w == e.wire
      else w.headers == 1 && (if q.env.writes(0) then w.body == [Written(k - 1, ErrorBody)] else w.left && w.body == [])
  {}

  /** The trail calls every attempt what it came to, in order; only a last one that might have been
      tried again is not called retrying, and one without a target is abnormal. */
  lemma TrailTells(q: Setup, i: nat)
    requires Steady(q.env) && i < Needed(q, 0)
    ensures var k, t := Needed(q, 0), BooksOf(q, Needed(q, 0)).trail;
      && |t| == k && t[i].n == i + 1
      && (t[i].modelId.Some? <==> q.env.attempts(i).dispatchError.None?)
      && (t[i].modelId.Some? ==> t[i].modelId.value == q.env.attempts(i).modelId)
      && (t[i].modelId.None? ==> i == k - 1 && t[i].outcome == Abnormal && t[i].upstreamMS == 0)
      && (i == k - 1 && FailedSafely(q, i) ==>
            t[i].outcome != Retrying
            && (t[i].outcome != Attempted(ClientOf(q, i)).outcome ==>
                  t[i].outcome == Abnormal && Attempted(ClientOf(q, i)).outcome == Retrying))
      && (t[i].modelId.Some? && !(i == k - 1 && FailedSafely(q, i)) ==>
            t[i].outcome == Attempted(ClientOf(q, i)).outcome)
  {
    TrailAt(q, Needed(q, 0), i);
    NeededWhileSafe(q);
    if i < Needed(q, 0) - 1 { assert FailedSafely(q, i); }
    EndsUnlessSafe(q, Needed(q, 0) - 1);
  }

  /** Times are whole milliseconds, rounded down, of what the clock showed around the calls; what
      was never sent upstream took no time there. */
  lemma TrailTimes(q: Setup, i: nat)
    requires Steady(q.env) && i < Needed(q, 0)
    ensures var t, a := BooksOf(q, Needed(q, 0)).trail[i], q.env.attempts(i);
      && t.dispatchMS * 1000000 <= a.dispatchEnd - a.dispatchStart < (t.dispatchMS + 1) * 1000000
      && (if a.dispatchError.Some? || a.prepareError.Some? then t.upstreamMS == 0
          else t.upstreamMS * 1000000 <= a.upstreamEnd - a.upstreamStart < (t.upstreamMS + 1) * 1000000)
  {
    TrailAt(q, Needed(q, 0), i);
    assert InOrder(q.env, i);
  }

  /** And if the last attempt succeeded, the client has been given all of what it heard. */
  lemma ServedDelivers(q: Setup)
    ensures var k := Needed(q, 0);
      var a := q.env.attempts(k - 1);
      a.dispatchError.None? && Attempted(ClientOf(q, k - 1)).res.err.None? ==>
        Delivered(Answer(q, k), ClientOf(q, k - 1), Heard(a.inputs))
  {
    AttemptIsFair(ClientOf(q, Needed(q, 0) - 1));
  }

  lemma NextDelivered(delivered: seq<Report>, queue: seq<Report>)
    requires queue != []
    ensures delivered + [queue[0]] + queue[1..] == delivered + queue
  {}

  class Session {
    const stream: bool
    const maxAttempts: int
    const hasReporter: bool
    const env: World

    var headers: nat
    var body: seq<Written>
    var writes: nat
    ghost var clientLeft: bool

    var trail: seq<Trace>
    var dispatchMS: int
    var upstreamMS: int
    var attemptDispatchMS: int
    var attemptUpstreamMS: int
    var latencyMS: int
    var queue: seq<Report>
    var delivered: seq<Report>

    ghost var dispatches: seq<seq<string>>

    constructor (stream: bool, maxAttempts: int, hasReporter: bool, env: World)
      ensures this.stream == stream && this.maxAttempts == maxAttempts && this.hasReporter == hasReporter
      ensures this.env == env && Fresh()
    {
      this.stream, this.maxAttempts, this.hasReporter, this.env := stream, maxAttempts, hasReporter, env;
      headers, body, writes, clientLeft := 0, [], 0, false;
      trail, dispatchMS, upstreamMS, attemptDispatchMS, attemptUpstreamMS, latencyMS := [], 0, 0, 0, 0, 0;
      queue, delivered, dispatches := [], [], [];
    }

    ghost predicate Fresh()
      reads this
    {
      && Now() == BLANK && trail == [] && dispatchMS == 0 && upstreamMS == 0
      && queue == [] && delivered == [] && dispatches == []
    }

    function Config(): Setup { Setup(stream, maxAttempts, hasReporter, env) }

    /** The client of attempt `k`. */
    function For(k: nat): Client { ClientOf(Config(), k) }

    /** What the client has now. */
    ghost function Now(): Wire
      reads this`headers, this`body, this`writes, this`clientLeft
    {
      Wire(headers, body, writes, clientLeft)
    }

    // ----- writing -----

    method WriteHeader()
      modifies this`headers
      ensures Now() == WithHeader(old(Now()))
    {
      headers := headers + 1;
    }

    method Write(attempt: nat, piece: Piece) returns (ok: bool)
      modifies this`body, this`writes, this`clientLeft
      ensures Now() == Put(old(Now()), For(attempt), piece) && ok == env.writes(old(writes))
    {
      ok := env.writes(writes);
      writes := writes + 1;
      if ok {
        body := body + [Written(attempt, piece)];
      } else {
        clientLeft := true;
      }
    }

    /** Answers with an error in place of content. */
    method Fail(attempt: nat)
      modifies this`headers, this`body, this`writes, this`clientLeft
      ensures Now() == Failed(old(Now()), For(attempt))
    {
      WriteHeader();
      var ok := Write(attempt, ErrorBody);
    }

    /** An event the client's protocol cannot express is skipped. */
    method WriteEvent(attempt: nat, ev: Event) returns (ok: bool)
      modifies this`body, this`writes, this`clientLeft
      ensures Now() == PutEvent(old(Now()), For(attempt), ev) && ok == !Loses(old(Now()), For(attempt), ev)
    {
      if !env.encodes(ev) {
        return true;
      }
      ok := Write(attempt, FromEvent(ev));
    }

    method WriteTail(attempt: nat, tail: seq<Event>) returns (ok: bool)
      modifies this`body, this`writes, this`clientLeft
      ensures (Now(), ok) == PutEvents(old(Now()), For(attempt), tail)
    {
      assert tail[0..] == tail;
      for k := 0 to |tail|
        invariant PutEvents(Now(), For(attempt), tail[k..]) == PutEvents(old(Now()), For(attempt), tail)
      {
        assert tail[k..][0] == tail[k] && tail[k..][1..] == tail[k + 1..];
        ok := WriteEvent(attempt, tail[k]);
        if !ok {
          return;
        }
      }
      ok := true;
    }

    method WriteSuccess(attempt: nat, tail: seq<Event>, agg: Agg)
      modifies this`headers, this`body, this`writes, this`clientLeft
      ensures Now() == Success(old(Now()), For(attempt), tail, agg)
    {
      if stream {
        var ok := WriteTail(attempt, tail);
        if ok {
          ok := Write(attempt, Closing);
        }
        return;
      }
      if !env.encodesWhole {
        Fail(attempt);
        return;
      }
      WriteHeader();
      var ok := Write(attempt, WholeResponse(ResponseOf(agg, env.proj)));
    }

    // ----- the bridge -----

    method Finish(attempt: nat, agg: Agg, committed: bool, tail: seq<Event>, err: Option<Error>)
      returns (outcome: Outcome, res: Result)
      modifies this`headers, this`body, this`writes, this`clientLeft
      ensures Ended(Now(), outcome, res) == Finished(Pump(old(Now()), agg, committed, tail, err), For(attempt), err)
    {
      if err.None? {
        if !committed {
          return Retrying, Result(Some(NewError(UpstreamKind, INCOMPLETE_STREAM)), false);
        }
        if |UnsafeBlocks(agg, env.proj, env.valid)| > 0 {
          var broken := NewError(UpstreamKind, INCOMPLETE_STREAM);
          if !stream {
            return Retrying, Result(Some(broken), false);
          }
          var ok := Write(attempt, ErrorFrame);
          return Abnormal, Result(Some(broken), true);
        }
        var whole, closing := agg, tail;
        if (exists i :: i in agg.order && i !in agg.closed) && ResponseOf(agg, env.proj).stopReason == StopUnset {
          var cut := MessageDelta(StopMaxTokens, "", None, NO_RECEIPTS, None);
          AddOne(agg, cut);
          whole, closing := Add(agg, cut), tail + [cut];
        } else {
          assert tail + [] == tail;
        }
        WriteSuccess(attempt, closing, whole);
        return Normal, Result(None, false);
      }
      if !committed {
        outcome := OutcomeFor(err.value);
        return outcome, Result(err, false);
      }
      if stream {
        var ok := Write(attempt, ErrorFrame);
      } else {
        Fail(attempt);
      }
      outcome, res := Abnormal, Result(err, true);
    }

    /** The client went away: nothing more is written, and nothing is retried. */
    method ClientGone() returns (outcome: Outcome, res: Result)
      modifies this`clientLeft
      ensures Ended(Now(), outcome, res) == Gone(old(Now()))
    {
      clientLeft := true;
      outcome, res := Normal, Result(Some(NewError(CanceledKind, "")), true);
    }

    /** Turns the upstream's events into the response.  The header goes out with the first
        event, and the terminators are held back until the stream is known to be complete. */
    method Bridge(attempt: nat, inputs: seq<Input>) returns (outcome: Outcome, res: Result)
      requires Now() == BLANK
      modifies this`headers, this`body, this`writes, this`clientLeft
      ensures Ended(Now(), outcome, res) == Bridged(IDLE, For(attempt), inputs)
    {
      var agg, committed, tail := NEW_AGG, false, [];
      var streamErr: Option<Error> := None;
      assert inputs[0..] == inputs;
      for k := 0 to |inputs|
        invariant Bridged(Pump(Now(), agg, committed, tail, streamErr), For(attempt), inputs[k..])
               == Bridged(IDLE, For(attempt), inputs)
      {
        assert inputs[k..][0] == inputs[k] && inputs[k..][1..] == inputs[k + 1..];
        match inputs[k]
        case Beat =>
          if committed && stream {
            var ok := Write(attempt, KeepAlive);
            if !ok {
              outcome, res := ClientGone();
              return;
            }
          }
        case Silence =>
          outcome, res := Finish(attempt, agg, committed, tail, Some(NewError(TimeoutKind, "")));
          return;
        case Closed(cause) =>
          outcome, res := TearDown(attempt, agg, committed, tail, cause, None, NewError(UpstreamKind, ""));
          return;
        case Broken(error, cause) =>
          outcome, res := TearDown(attempt, agg, committed, tail, cause, streamErr, error);
          return;
        case Frame(events, done) =>
          var over;
          agg, committed, tail, streamErr, over := ReadFrame(attempt, events, agg, committed, tail, streamErr);
          if over == LostClient {
            outcome, res := ClientGone();
            return;
          }
          if over == GateTripped {
            var large := NewError(UpstreamKind, RESPONSE_TOO_LARGE).(retryable := false);
            outcome, res := Finish(attempt, agg, committed, tail, Some(large));
            return;
          }
          if done {
            outcome, res := Finish(attempt, agg, committed, tail, streamErr);
            return;
          }
      }
      outcome, res := Finish(attempt, agg, committed, tail, Some(NewError(TimeoutKind, "")));
    }

    method TearDown(attempt: nat, agg: Agg, committed: bool, tail: seq<Event>, cause: Teardown,
                    streamErr: Option<Error>, upstreamErr: Error)
      returns (outcome: Outcome, res: Result)
      modifies this`headers, this`body, this`writes, this`clientLeft
      ensures Ended(Now(), outcome, res)
           == TornDown(Pump(old(Now()), agg, committed, tail, streamErr), For(attempt), cause, streamErr, upstreamErr)
    {
      if cause == BudgetSpent {
        var spent := NewError(TimeoutKind, "").(retryable := false);
        outcome, res := Finish(attempt, agg, committed, tail, Some(spent));
      } else if cause == ClientLeft {
        outcome, res := ClientGone();
      } else if streamErr.Some? {
        outcome, res := Finish(attempt, agg, committed, tail, streamErr);
      } else {
        outcome, res := Finish(attempt, agg, committed, tail, Some(upstreamErr));
      }
    }

    method ReadFrame(attempt: nat, events: seq<Event>, agg0: Agg, committed0: bool, tail0: seq<Event>, err0: Option<Error>)
      returns (agg: Agg, committed: bool, tail: seq<Event>, streamErr: Option<Error>, over: Over)
      modifies this`headers, this`body, this`writes, this`clientLeft
      ensures (Pump(Now(), agg, committed, tail, streamErr), over)
           == TakeEvents(Pump(old(Now()), agg0, committed0, tail0, err0), For(attempt), events)
    {
      agg, committed, tail, streamErr, over := agg0, committed0, tail0, err0, GoesOn;
      assert events[0..] == events;
      for k := 0 to |events|
        invariant over == GoesOn
        invariant TakeEvents(Pump(Now(), agg, committed, tail, streamErr), For(attempt), events[k..])
               == TakeEvents(Pump(old(Now()), agg0, committed0, tail0, err0), For(attempt), events)
      {
        assert events[k..][0] == events[k] && events[k..][1..] == events[k + 1..];
        agg, committed, tail, streamErr, over := ReadEvent(attempt, events[k], agg, committed, tail, streamErr);
        if over != GoesOn {
          return;
        }
      }
    }

    method ReadEvent(attempt: nat, ev: Event, agg0: Agg, committed0: bool, tail0: seq<Event>, err0: Option<Error>)
      returns (agg: Agg, committed: bool, tail: seq<Event>, streamErr: Option<Error>, over: Over)
      modifies this`headers, this`body, this`writes, this`clientLeft
      ensures (Pump(Now(), agg, committed, tail, streamErr), over)
           == TakeEvent(Pump(old(Now()), agg0, committed0, tail0, err0), For(attempt), ev)
    {
      agg, committed, tail, streamErr, over := agg0, committed0, tail0, err0, GoesOn;
      if ev.StreamError? {
        streamErr := Some(env.classify(ev.message));
        return;
      }
      agg := Add(agg, ev);
      if !committed {
        committed := true;
        if stream {
          WriteHeader();
        }
      }
      if agg.ledger.overflow != Fits {
        over := GateTripped;
        return;
      }
      if IsTerminator(ev) {
        tail := tail + [ev];
        return;
      }
      if stream {
        var ok := WriteEvent(attempt, ev);
        if !ok {
          over := LostClient;
        }
      }
    }

    // ----- one attempt -----

    method Run(k: nat, a: Attempt) returns (outcome: Outcome, res: Result)
      requires Now() == BLANK && a == env.attempts(k) && InOrder(env, k) && attemptUpstreamMS == 0 && a.dispatchError.None?
      modifies this`headers, this`body, this`writes, this`clientLeft, this`upstreamMS, this`attemptUpstreamMS
      ensures Ended(Now(), outcome, res) == Attempted(For(k))
      ensures upstreamMS == old(upstreamMS) + attemptUpstreamMS
      ensures attemptUpstreamMS == UpstreamTime(env, k)
    {
      if a.prepareError.Some? {
        return InvalidModel, Result(Some(a.prepareError.value.(retryable := true)), false);
      }
      var spent := Millis(a.upstreamEnd - a.upstreamStart);
      upstreamMS := upstreamMS + spent;
      attemptUpstreamMS := spent;
      if a.openError.Some? {
        outcome := OutcomeFor(a.openError.value);
        return outcome, Result(a.openError, false);
      }
      outcome, res := Bridge(k, a.inputs);
    }

    // ----- the whole request -----

    /** The record after `k` attempts. */
    ghost predicate Kept(k: nat)
      requires Steady(env)
      reads this
    {
      var b := BooksOf(Config(), k);
      && trail == b.trail && dispatches == b.asked && dispatchMS == b.dispatchMS && upstreamMS == b.upstreamMS
      && delivered + queue == if hasReporter then b.reports else []
    }

    /** Attempt `k` has been dispatched, and is not yet written down. */
    ghost predicate Dispatched(k: nat)
      requires Steady(env)
      reads this
    {
      var a, b := env.attempts(k), BooksOf(Config(), k);
      && attemptDispatchMS == DispatchTime(env, k)
      && trail == b.trail && dispatches == b.asked + [b.models]
      && dispatchMS == b.dispatchMS + attemptDispatchMS && upstreamMS == b.upstreamMS + attemptUpstreamMS
      && delivered + queue == if hasReporter then b.reports else []
    }

    /** The state in which attempt `k` begins. */
    ghost predicate Ready(k: nat, tried: seq<string>)
      requires Steady(env)
      reads this
    {
      Now() == BLANK && Kept(k) && tried == BooksOf(Config(), k).models
    }

    /** So much of the clock is accounted for at the time `now`. */
    ghost predicate Elapsed(now: int)
      reads this`dispatchMS, this`upstreamMS
    {
      env.start <= now && 0 <= dispatchMS + upstreamMS <= Millis(now - env.start)
    }

    /** Asks the dispatcher for a target. */
    method Dispatch(k: nat, tried: seq<string>) returns (a: Attempt)
      requires Steady(env) && Ready(k, tried) && Elapsed(env.attempts(k).dispatchStart)
      modifies this`dispatches, this`attemptDispatchMS, this`attemptUpstreamMS, this`dispatchMS
      ensures a == env.attempts(k) && Dispatched(k) && attemptUpstreamMS == 0
      ensures Elapsed(a.dispatchEnd)
    {
      a := env.attempts(k);
      assert InOrder(env, k);
      attemptUpstreamMS := 0;
      dispatches := dispatches + [tried];
      attemptDispatchMS := Millis(a.dispatchEnd - a.dispatchStart);
      MillisAdd(a.dispatchStart - env.start, a.dispatchEnd - a.dispatchStart);
      dispatchMS := dispatchMS + attemptDispatchMS;
    }

    /** The consumer, which runs beside the request, takes the oldest reports and delivers
        them one by one. */
    method Consume(n: nat)
      modifies this`queue, this`delivered
      ensures delivered + queue == old(delivered + queue) && |queue| <= |old(queue)|
      ensures |delivered| >= |old(delivered)| && (n >= |old(queue)| ==> queue == [])
    {
      ghost var all := delivered + queue;
      for i := 0 to n
        invariant delivered + queue == all && |queue| <= |old(queue)| && |delivered| >= |old(delivered)|
        invariant |queue| + i <= |old(queue)| || queue == []
      {
        if |queue| > 0 {
          NextDelivered(delivered, queue);
          delivered, queue := delivered + [queue[0]], queue[1..];
        }
      }
    }

    /** Writes the attempt down and queues its report, whatever the consumer has taken by then.
        The channel has room for every attempt, so the sender never waits. */
    method Record(k: nat, modelId: Option<string>, outcome: Outcome)
      requires Steady(env) && Dispatched(k) && k < Config().Limit()
      requires Trace(k + 1, modelId, outcome, attemptDispatchMS, attemptUpstreamMS) == TraceOf(Config(), k)
      modifies this`trail, this`queue, this`delivered
      ensures Kept(k + 1) && |queue| <= Config().Limit()
    {
      Consume(env.takes(k));
      trail := trail + [Trace(k + 1, modelId, outcome, attemptDispatchMS, attemptUpstreamMS)];
      if hasReporter && modelId.Some? {
        Associate(delivered, queue, [Report(k, modelId.value, outcome)]);
        queue := queue + [Report(k, modelId.value, outcome)];
      }
    }

    /** One turn of the retry loop; `over` when the request has been answered. */
    method AttemptOnce(k: nat, tried0: seq<string>) returns (over: bool, tried: seq<string>)
      requires Steady(env) && Ready(k, tried0) && k < Config().Limit() && Elapsed(env.attempts(k).dispatchStart)
      modifies this
      ensures Kept(k + 1) && over == !Retries(Config(), k)
      ensures if over then Now() == Answer(Config(), k + 1) else Ready(k + 1, tried)
      ensures Elapsed(env.attempts(k).upstreamEnd)
    {
      var a := Dispatch(k, tried0);
      if a.dispatchError.Some? {
        NoTarget(k, a);
        return true, tried0;
      }
      var outcome, res := RunDispatched(k, a);
      over, tried := Settle(k, a.modelId, tried0, outcome, res);
    }

    /** There is no target to be had: an attempt without a model, and no report. */
    method NoTarget(k: nat, a: Attempt)
      requires Steady(env) && Dispatched(k) && k < Config().Limit() && Now() == BLANK
      requires a == env.attempts(k) && a.dispatchError.Some? && attemptUpstreamMS == 0 && Elapsed(a.dispatchEnd)
      modifies this`trail, this`queue, this`delivered, this`headers, this`body, this`writes, this`clientLeft
      ensures Kept(k + 1) && Now() == Answer(Config(), k + 1) && Elapsed(a.upstreamEnd)
    {
      NoTargetMeans(Config(), k);
      MillisAdd(a.dispatchEnd - env.start, a.upstreamEnd - a.dispatchEnd);
      Record(k, None, Abnormal);
      Fail(k);
    }

    /** Runs the attempt that has been dispatched. */
    method RunDispatched(k: nat, a: Attempt) returns (outcome: Outcome, res: Result)
      requires Steady(env) && Dispatched(k) && Now() == BLANK && attemptUpstreamMS == 0
      requires a == env.attempts(k) && a.dispatchError.None? && Elapsed(a.dispatchEnd)
      modifies this`headers, this`body, this`writes, this`clientLeft, this`upstreamMS, this`attemptUpstreamMS
      ensures Dispatched(k) && Ended(Now(), outcome, res) == Attempted(For(k)) && Elapsed(a.upstreamEnd)
      ensures attemptUpstreamMS == UpstreamTime(env, k)
      ensures res.err.Some? && !res.committed ==> Now() == BLANK
    {
      outcome, res := Run(k, a);
      MillisAdd(a.dispatchEnd - env.start, a.upstreamEnd - a.upstreamStart);
      RetryLeavesNothing(Config(), k);
    }

    /** Whether to try again, and what to say if not. */
    method Settle(k: nat, modelId: string, tried0: seq<string>, outcome: Outcome, res: Result)
      returns (over: bool, tried: seq<string>)
      requires Steady(env) && Dispatched(k) && k < Config().Limit() && tried0 == BooksOf(Config(), k).models
      requires var a := env.attempts(k);
        && a.dispatchError.None? && a.modelId == modelId
        && attemptUpstreamMS == UpstreamTime(env, k)
      requires Ended(Now(), outcome, res) == Attempted(For(k))
      requires res.err.Some? && !res.committed ==> Now() == BLANK
      modifies this`trail, this`queue, this`delivered, this`headers, this`body, this`writes, this`clientLeft
      ensures Kept(k + 1) && over == !Retries(Config(), k)
      ensures if over then EndsRequest(Config(), k) else FailedSafely(Config(), k)
      ensures if over then Now() == Answer(Config(), k + 1) else Now() == BLANK && tried == BooksOf(Config(), k + 1).models
    {
      tried := tried0;
      if res.err.None? || res.committed {
        Record(k, Some(modelId), outcome);
        return true, tried;
      }
      if res.err.value.sideEffectRisk || !res.err.value.retryable {
        Record(k, Some(modelId), outcome);
        Fail(k);
        return true, tried;
      }
      var last := k + 1 == Config().Limit();
      Record(k, Some(modelId), if last then Downgrade(outcome) else outcome);
      tried := tried + [modelId];
      over := false;
    }

    /** The state after `k` turns of the retry loop. */
    ghost predicate Turned(k: nat, tried: seq<string>, over: bool)
      requires Steady(env)
      reads this
    {
      && k <= Config().Limit() && Kept(k)
      && (if over then k > 0 && Now() == Answer(Config(), k) else Ready(k, tried) && Untried(k))
      && Needed(Config(), 0) == (if over || k == Config().Limit() then k else Needed(Config(), k))
      && (if k == 0 then dispatchMS == 0 && upstreamMS == 0 else Elapsed(env.attempts(k - 1).upstreamEnd))
    }

    ghost predicate Untried(k: nat) { k > 0 ==> Retries(Config(), k - 1) }

    /** Attempt after attempt, until one ends the request or no more are allowed. */
    method Attempts() returns (k: nat, over: bool, ghost tried: seq<string>)
      requires Fresh() && Steady(env)
      modifies this
      ensures Turned(k, tried, over) && (over || k == Config().Limit())
    {
      var models: seq<string> := [];
      k, over := 0, false;
      while k < Config().Limit() && !over
        invariant k <= Config().Limit() && Turned(k, models, over)
        decreases Config().Limit() - k, !over
      {
        if k > 0 { NextTurn(k); }
        NeededStep(Config(), k);
        over, models := AttemptOnce(k, models);
        k := k + 1;
      }
      tried := models;
    }

    /** The whole request.  The attempts made, the record of them and the response are what
        `Needed`, `BooksOf` and `Answer` say; the parts of the latency add up to no more than
        the whole; and all reports are delivered, in order, before the end. */
    method Serve() returns (k: nat)
      requires Fresh() && Steady(env)
      modifies this
      ensures k == Needed(Config(), 0) && Now() == Answer(Config(), k)
      ensures |trail| == k && TriedWhileSafe(Config(), k)
      ensures Kept(k) && queue == [] && delivered == if hasReporter then BooksOf(Config(), k).reports else []
      ensures 0 <= dispatchMS + upstreamMS <= latencyMS
    {
      var over;
      ghost var tried;
      k, over, tried := Attempts();
      if !over {
        ExhaustedMeans(Config(), k - 1);
        Fail(k - 1);
      }
      Close(k);
      NeededWhileSafe(Config());
    }

    lemma NextTurn(k: nat)
      requires k > 0 && Steady(env) && Elapsed(env.attempts(k - 1).upstreamEnd)
      ensures Elapsed(env.attempts(k).dispatchStart) && Elapsed(env.endAfter(k))
    {
      assert InOrder(env, k - 1);
    }

    /** Waits for the consumer to deliver what is still queued, and reads the clock. */
    method Close(k: nat)
      requires k > 0 && Steady(env) && Elapsed(env.attempts(k - 1).upstreamEnd)
      modifies this`queue, this`delivered, this`latencyMS
      ensures queue == [] && delivered == old(delivered + queue) && dispatchMS + upstreamMS <= latencyMS
    {
      NextTurn(k);
      Consume(|queue|);
      latencyMS := Millis(env.endAfter(k) - env.start);
    }
  }
}
