/** Why a request is tried again, why it is not, and with which error an attempt ends, told from the
    script alone: backend/pipeline/pipeline.go and bridge.go.

    Nothing here goes by the retry test of the pipeline; what counts is written out on the
    fields of an attempt's error. */
module Verdicts {
  import opened Ir
  import opened Aggregate
  import opened Replay
  import opened Bridging
  import opened Seqs
  import opened Collector
  import Reported
  import Contents
  import Unfinished

  // ----- the errors there are -----

  /** An error of our own making may be retried exactly when its outcome is to be, and nothing was
      handed over by then. */
  lemma OwnErrors(kind: ErrorKind, code: string)
    ensures var e := NewError(kind, code);
      && e.kind == kind && e.code == code && !e.sideEffectRisk
      && (e.retryable <==> OutcomeFor(e) == Retrying || OutcomeFor(e) == Transport)
      && (OutcomeFor(e) == Transport <==> kind == TransportKind)
      && (OutcomeFor(e) == Retrying <==> kind == RateLimitKind || kind == UpstreamKind || kind == TimeoutKind)
      && (OutcomeFor(e) == ContextExceeded <==> kind == ContextExceededKind)
      && (OutcomeFor(e) == InvalidModel <==> kind == NotFoundKind) && OutcomeFor(e) != Normal
  {}

  // ----- how the upstream's side ends -----

  /** What an upstream does last: it concludes, breaks off with an error of its own, is found closed,
      or says nothing more. */
  datatype Last = Concluding | Breaking(error: Error, cause: Teardown) | Shut(cause: Teardown) | Silent

  function LastOf(inputs: seq<Input>): Last {
    if inputs == [] then Silent
    else
      match inputs[0]
      case Silence => Silent
      case Closed(cause) => Shut(cause)
      case Broken(error, cause) => Breaking(error, cause)
      case Beat => LastOf(inputs[1..])
      case Frame(_, done) => if done then Concluding else LastOf(inputs[1..])
  }

  /** The error events on the way there. */
  function Complaints(evs: seq<Event>): seq<string> {
    if evs == [] then [] else (if evs[0].StreamError? then [evs[0].message] else []) + Complaints(evs[1..])
  }

  function AllComplaints(inputs: seq<Input>): seq<string> {
    if inputs == [] then []
    else
      match inputs[0]
      case Frame(events, done) => Complaints(events) + (if done then [] else AllComplaints(inputs[1..]))
      case Beat => AllComplaints(inputs[1..])
      case _ => []
  }

  /** The error that the last of the complaints stands for. */
  function Complaint(c: Client, was: Option<Error>, complaints: seq<string>): Option<Error> {
    if complaints == [] then was else Some(c.env.classify(complaints[|complaints| - 1]))
  }

  // ----- the error an attempt ends with -----

  predicate IsOwn(e: Error, kind: ErrorKind, code: string, retryable: bool) {
    e.kind == kind && e.code == code && e.retryable == retryable && !e.sideEffectRisk
  }

  /** The client is gone: that is nobody's failure, and final. */
  predicate Left(e: Ended) {
    e.outcome == Normal && e.res.committed && e.res.err.Some? && IsOwn(e.res.err.value, CanceledKind, "", false)
  }

  /** A failure after anything was heard is final and abnormal; one before that is neither, and its
      outcome is that of its error. */
  predicate FailsWith(e: Ended, err: Error, heard: seq<Event>) {
    && e.res.err == Some(err) && (e.res.committed <==> heard != [])
    && e.outcome == if heard != [] then Abnormal else OutcomeFor(err)
  }

  /** The upstream was heard out, and what it said cannot be passed off as a whole answer: a client
      that was promised one answer may still get another; one that has read part of this may not. */
  predicate FallsShort(e: Ended, c: Client, heard: seq<Event>) {
    && e.res.err.Some? && IsOwn(e.res.err.value, UpstreamKind, "incomplete_stream", true)
    && (e.res.committed <==> heard != [] && c.stream)
    && e.outcome == if heard != [] && c.stream then Abnormal else Retrying
  }

  /** How an attempt ends, by what was heard, what was complained of, and how it ended.  Our own
      limit comes first, then our own budget, then the client, then what the upstream complained
      of, and only then how it broke off. */
  ghost predicate EndsBy(e: Ended, c: Client, heard: seq<Event>, complaint: Option<Error>, last: Last) {
    || (Left(e) && !Reliable(c))
    || (if AddAll(NEW_AGG, heard).ledger.overflow != Fits then
          exists err :: IsOwn(err, UpstreamKind, "response_too_large", false) && FailsWith(e, err, heard)
        else match last
          case Silent => exists err :: IsOwn(err, TimeoutKind, "", true) && FailsWith(e, err, heard)
          case Shut(BudgetSpent) => exists err :: IsOwn(err, TimeoutKind, "", false) && FailsWith(e, err, heard)
          case Breaking(_, BudgetSpent) => exists err :: IsOwn(err, TimeoutKind, "", false) && FailsWith(e, err, heard)
          case Shut(ClientLeft) => Left(e)
          case Breaking(_, ClientLeft) => Left(e)
          case Shut(UpstreamBroke) => exists err :: IsOwn(err, UpstreamKind, "", true) && FailsWith(e, err, heard)
          case Breaking(error, UpstreamBroke) => FailsWith(e, if complaint.Some? then complaint.value else error, heard)
          case Concluding =>
            if complaint.Some? then FailsWith(e, complaint.value, heard)
            else if heard == [] || UnsafeBlocks(AddAll(NEW_AGG, heard), c.env.proj, c.env.valid) != []
            then FallsShort(e, c, heard)
            else e.res.err.None? && !e.res.committed && e.outcome == Normal)
  }

  lemma {:induction false} ComplaintNoted(p: Pump, c: Client, evs: seq<Event>)
    ensures var (q, over) := TakeEvents(p, c, evs);
      over == GoesOn ==> q.err == Complaint(c, p.err, Complaints(evs))
    decreases |evs|
  {
    if evs == [] {
    } else {
      var (q, over) := TakeEvent(p, c, evs[0]);
      if over == GoesOn {
        ComplaintNoted(q, c, evs[1..]);
        ComplaintMore(c, p.err, if evs[0].StreamError? then [evs[0].message] else [], Complaints(evs[1..]));
      }
    }
  }

  lemma ComplaintMore(c: Client, was: Option<Error>, x: seq<string>, y: seq<string>)
    ensures Complaint(c, was, x + y) == Complaint(c, Complaint(c, was, x), y)
  {
    ConcatNothing(x);
    if y != [] { ConcatFront(x, y); }
  }

  lemma BrokeFails(p: Pump, c: Client, heard: seq<Event>, err: Error)
    requires p.committed <==> heard != []
    ensures FailsWith(Broke(p, c, err), err, heard)
  {}

  lemma TornDownEnds(p: Pump, c: Client, heard: seq<Event>, cause: Teardown, complaint: Option<Error>, upstream: Error)
    requires Pumped(p, c, heard)
    ensures var e := TornDown(p, c, cause, complaint, upstream);
      match cause
      case BudgetSpent => exists err :: IsOwn(err, TimeoutKind, "", false) && FailsWith(e, err, heard)
      case ClientLeft => Left(e)
      case UpstreamBroke => FailsWith(e, if complaint.Some? then complaint.value else upstream, heard)
  {
    if cause == BudgetSpent { assert IsOwn(NewError(TimeoutKind, "").(retryable := false), TimeoutKind, "", false); }
  }

  lemma CompletedEnds(p: Pump, c: Client, heard: seq<Event>)
    requires Pumped(p, c, heard)
    ensures var e := Completed(p, c);
      if heard == [] || UnsafeBlocks(AddAll(NEW_AGG, heard), c.env.proj, c.env.valid) != []
      then FallsShort(e, c, heard)
      else e.res.err.None? && !e.res.committed && e.outcome == Normal
  {}

  lemma SilenceEnds(p: Pump, c: Client, heard: seq<Event>, complaint: Option<Error>)
    requires Pumped(p, c, heard)
    ensures EndsBy(Broke(p, c, NewError(TimeoutKind, "")), c, heard, complaint, Silent)
  {
    BrokeFails(p, c, heard, NewError(TimeoutKind, ""));
    assert IsOwn(NewError(TimeoutKind, ""), TimeoutKind, "", true);
  }

  lemma StopsShort(q: Pump, over: Over, c: Client, heard: seq<Event>, complaint: Option<Error>, last: Last)
    requires over != GoesOn && Interrupted(q, over, c, heard) && heard != []
    ensures EndsBy(if over == LostClient then Gone(q.wire) else Broke(q, c, TooLarge()), c, heard, complaint, last)
  {
    if over == GateTripped {
      BrokeFails(q, c, heard, TooLarge());
      assert IsOwn(TooLarge(), UpstreamKind, "response_too_large", false);
    }
  }

  lemma {:induction false} StoppedHeard(p: Pump, c: Client, evs: seq<Event>)
    ensures TakeEvents(p, c, evs).1 != GoesOn ==> Proper(evs) != []
    decreases |evs|
  {
    if evs == [] {
    } else {
      var (q, over) := TakeEvent(p, c, evs[0]);
      if over == GoesOn { StoppedHeard(q, c, evs[1..]); }
    }
  }

  /** What the rest of the inputs makes of the attempt. */
  ghost predicate EndsAs(p: Pump, c: Client, heard: seq<Event>, inputs: seq<Input>) {
    EndsBy(Bridged(p, c, inputs), c, heard + Heard(inputs), Complaint(c, p.err, AllComplaints(inputs)), LastOf(inputs))
  }

  lemma FrameStopsShort(p: Pump, c: Client, heard: seq<Event>, inputs: seq<Input>)
    requires Pumped(p, c, heard) && inputs != [] && inputs[0].Frame?
    requires TakeEvents(p, c, inputs[0].events).1 != GoesOn
    ensures EndsAs(p, c, heard, inputs)
  {
    var evs := inputs[0].events;
    var (q, over) := TakeEvents(p, c, evs);
    var here, later := heard + Proper(evs), if inputs[0].done then [] else Heard(inputs[1..]);
    TakeEventsKeep(p, c, heard, evs);
    StoppedHeard(p, c, evs);
    InterruptedBefore(q, over, c, here, later);
    HeardFrame(heard, inputs);
    BridgedFrame(p, c, inputs);
    StopsShort(q, over, c, here + later, Complaint(c, p.err, AllComplaints(inputs)), LastOf(inputs));
  }

  lemma ConcludedEnds(q: Pump, c: Client, heard: seq<Event>)
    requires Pumped(q, c, heard)
    ensures EndsBy(Finished(q, c, q.err), c, heard, q.err, Concluding)
  {
    if q.err.None? { CompletedEnds(q, c, heard); } else { BrokeFails(q, c, heard, q.err.value); }
  }

  lemma FrameGoesOn(p: Pump, c: Client, heard: seq<Event>, inputs: seq<Input>)
    requires Pumped(p, c, heard) && inputs != [] && inputs[0].Frame?
    requires var (q, over) := TakeEvents(p, c, inputs[0].events);
      over == GoesOn && (inputs[0].done || EndsAs(q, c, heard + Proper(inputs[0].events), inputs[1..]))
    ensures EndsAs(p, c, heard, inputs)
  {
    var evs := inputs[0].events;
    var (q, _) := TakeEvents(p, c, evs);
    TakeEventsKeep(p, c, heard, evs);
    ComplaintNoted(p, c, evs);
    HeardFrame(heard, inputs);
    BridgedFrame(p, c, inputs);
    ComplaintMore(c, p.err, Complaints(evs), if inputs[0].done then [] else AllComplaints(inputs[1..]));
    if inputs[0].done {
      ConcludedEnds(q, c, heard + Proper(evs));
      ConcatNothing(heard + Proper(evs));
    }
  }

  lemma BeatEnds(p: Pump, c: Client, heard: seq<Event>, inputs: seq<Input>)
    requires Pumped(p, c, heard) && inputs != [] && inputs[0].Beat? && p.committed && c.stream
    requires var w := Put(p.wire, c, KeepAlive);
      !w.left ==> EndsAs(p.(wire := w), c, heard, inputs[1..])
    ensures EndsAs(p, c, heard, inputs)
  {
    var w := Put(p.wire, c, KeepAlive);
    assert !p.wire.left;
    if w.left { assert Left(Gone(w)) && !Reliable(c); }
  }

  lemma {:induction false} AttemptEnds(p: Pump, c: Client, heard: seq<Event>, inputs: seq<Input>)
    requires Pumped(p, c, heard)
    ensures EndsAs(p, c, heard, inputs)
    decreases |inputs|
  {
    if inputs == [] || inputs[0].Silence? {
      ConcatNothing(heard);
      SilenceEnds(p, c, heard, p.err);
    } else {
      match inputs[0]
      case Closed(cause) =>
        ConcatNothing(heard);
        TornDownEnds(p, c, heard, cause, None, NewError(UpstreamKind, ""));
        assert IsOwn(NewError(UpstreamKind, ""), UpstreamKind, "", true);
      case Broken(error, cause) =>
        ConcatNothing(heard);
        TornDownEnds(p, c, heard, cause, p.err, error);
      case Beat =>
        if p.committed && c.stream {
          var w := Put(p.wire, c, KeepAlive);
          PutShows(p.wire, c, KeepAlive, Keep(heard, Shown(c)));
          if !w.left { AttemptEnds(p.(wire := w), c, heard, inputs[1..]); }
          BeatEnds(p, c, heard, inputs);
        } else {
          AttemptEnds(p, c, heard, inputs[1..]);
        }
      case Frame(events, done) =>
        var (q, over) := TakeEvents(p, c, events);
        if over != GoesOn {
          FrameStopsShort(p, c, heard, inputs);
        } else {
          TakeEventsKeep(p, c, heard, events);
          if !done { AttemptEnds(q, c, heard + Proper(events), inputs[1..]); }
          FrameGoesOn(p, c, heard, inputs);
        }
    }
  }

  /** For every script: an attempt that cannot be prepared says the model is invalid and may be tried
      elsewhere; one that cannot be opened fails with the error it was refused with; and any other
      ends by what it heard and how it ended. */
  lemma AttemptsEndByTheirScript(c: Client)
    ensures var a, e := c.env.attempts(c.attempt), Attempted(c);
      if a.prepareError.Some? then
        && e.outcome == InvalidModel && !e.res.committed && e.res.err.Some? && e.res.err.value.retryable
        && e.res.err.value.(retryable := a.prepareError.value.retryable) == a.prepareError.value
      else if a.openError.Some? then
        e.outcome == OutcomeFor(a.openError.value) && !e.res.committed && e.res.err == a.openError
      else EndsBy(e, c, Heard(a.inputs), Complaint(c, None, AllComplaints(a.inputs)), LastOf(a.inputs))
  {
    var a := c.env.attempts(c.attempt);
    if a.prepareError.None? && a.openError.None? {
      AttemptEnds(IDLE, c, [], a.inputs);
      ConcatNothing(Heard(a.inputs));
    }
  }

  // ----- a text that was cut short -----

  function Feeds(evs: seq<Event>): seq<Op> {
    if evs == [] then [] else Feeds(evs[..|evs| - 1]) + [Feed(evs[|evs| - 1])]
  }

  lemma {:induction false} FeedsRun(evs: seq<Event>, proj: Projection)
    ensures Run(Feeds(evs), proj) == AddAll(NEW_AGG, evs) && Reported.Fed(Feeds(evs)) == evs
  {
    if evs == [] {
    } else {
      var front := evs[..|evs| - 1];
      FeedsRun(front, proj);
      assert Feeds(evs)[..|Feeds(evs)| - 1] == Feeds(front);
      FrontLast(evs);
    }
  }

  /** Some block was heard of that never stopped, no call was made, and no reason to stop was told. */
  ghost predicate CutShort(heard: seq<Event>) {
    && (exists i :: i in Contents.Arrivals(heard) && !Unfinished.Stopped(heard, i))
    && Reported.Last(Reported.StopsSaid(heard), StopUnset) == StopUnset
    && forall i :: i in Contents.Arrivals(heard) ==>
         var life := Contents.LifeOf(heard, i); life.Some? ==> life.value.start.kind != BlockToolUse
  }

  /** A stream that stopped in the middle of a text is said to have run out of tokens, and no other
      stream is. */
  lemma CutExactlyWhenShort(heard: seq<Event>, proj: Projection)
    requires AddAll(NEW_AGG, heard).ledger.overflow == Fits
    ensures Cut(AddAll(NEW_AGG, heard), proj)
         == if CutShort(heard) then [MessageDelta(StopMaxTokens, "", None, NO_RECEIPTS, None)] else []
  {
    var ops := Feeds(heard);
    FeedsRun(heard, proj);
    Contents.GatesTripExactlyWhenFull(ops, proj);
    Unfinished.OpenExactlyWhenUnstopped(ops, proj);
    Reported.ResponseSaysWhatWasReported(ops, proj);
    CallsAreHeard(ops, proj);
  }

  lemma CallsAreHeard(ops: seq<Op>, proj: Projection)
    requires Contents.WithinGates(Reported.Fed(ops))
    ensures var content, evs := ResponseOf(Run(ops, proj), proj).content, Reported.Fed(ops);
      (exists k :: 0 <= k < |content| && content[k].kind == BlockToolUse)
      <==> exists i :: i in Contents.Arrivals(evs) && Contents.LifeOf(evs, i).Some?
                       && Contents.LifeOf(evs, i).value.start.kind == BlockToolUse
  {
    var content, evs := ResponseOf(Run(ops, proj), proj).content, Reported.Fed(ops);
    var order := Contents.Arrivals(evs);
    Contents.ContentIsWhatWasHeard(ops, proj, 0);
    forall k | 0 <= k < |order|
      ensures Contents.LifeOf(evs, order[k]).Some?
      ensures content[k].kind == Contents.LifeOf(evs, order[k]).value.start.kind
    {
      Contents.ContentIsWhatWasHeard(ops, proj, k);
    }
    if exists k :: 0 <= k < |content| && content[k].kind == BlockToolUse {
      var k :| 0 <= k < |content| && content[k].kind == BlockToolUse;
      assert order[k] in order;
    }
    if i :| i in order && Contents.LifeOf(evs, i).Some? && Contents.LifeOf(evs, i).value.start.kind == BlockToolUse {
      var k :| 0 <= k < |order| && order[k] == i;
      assert content[k].kind == BlockToolUse;
    }
  }

  // ----- what is written -----

  /** Everything tried so far got through. */
  ghost predicate Flows(w: Wire, c: Client) {
    !w.left && w.writes == |w.body| && forall k :: 0 <= k < |w.body| ==> c.env.writes(k)
  }

  /** Of the writes that were tried, all got through but for the last, and that one only if the
      client has left. */
  ghost predicate InTurn(w: Wire, c: Client) {
    && (forall k :: 0 <= k < |w.body| ==> c.env.writes(k))
    && (w.writes == |w.body| || (w.left && w.writes == |w.body| + 1 && !c.env.writes(|w.body|)))
  }

  lemma PutInTurn(w: Wire, c: Client, piece: Piece)
    requires Flows(w, c)
    ensures InTurn(Put(w, c, piece), c) && (c.env.writes(w.writes) ==> Flows(Put(w, c, piece), c))
  {}

  lemma {:induction false} PutEventsInTurn(w: Wire, c: Client, evs: seq<Event>)
    requires Flows(w, c)
    ensures var (out, ok) := PutEvents(w, c, evs); InTurn(out, c) && (ok ==> Flows(out, c))
    decreases |evs|
  {
    if evs == [] {
    } else {
      PutInTurn(w, c, FromEvent(evs[0]));
      if !Loses(w, c, evs[0]) { PutEventsInTurn(PutEvent(w, c, evs[0]), c, evs[1..]); }
    }
  }

  lemma EndingsInTurn(w: Wire, c: Client, tail: seq<Event>, agg: Agg)
    requires Flows(w, c)
    ensures InTurn(Failed(w, c), c) && InTurn(Put(w, c, ErrorFrame), c) && InTurn(Success(w, c, tail, agg), c)
  {
    PutEventsInTurn(w, c, tail);
  }

  lemma {:induction false} TakeEventsInTurn(p: Pump, c: Client, evs: seq<Event>)
    requires Flows(p.wire, c)
    ensures var (q, over) := TakeEvents(p, c, evs); InTurn(q.wire, c) && (over != LostClient ==> Flows(q.wire, c))
    decreases |evs|
  {
    if evs == [] {
    } else {
      var (q, over) := TakeEvent(p, c, evs[0]);
      PutInTurn(if !p.committed && c.stream then WithHeader(p.wire) else p.wire, c, FromEvent(evs[0]));
      if over == GoesOn { TakeEventsInTurn(q, c, evs[1..]); }
    }
  }

  lemma FinishedInTurn(p: Pump, c: Client, err: Option<Error>)
    requires Flows(p.wire, c)
    ensures InTurn(Finished(p, c, err).wire, c)
  {
    var cut := Cut(p.agg, c.env.proj);
    EndingsInTurn(p.wire, c, p.tail + cut, AddAll(p.agg, cut));
  }

  lemma {:induction false} BridgedInTurn(p: Pump, c: Client, inputs: seq<Input>)
    requires Flows(p.wire, c)
    ensures InTurn(Bridged(p, c, inputs).wire, c)
    decreases |inputs|
  {
    EndingsInTurn(p.wire, c, [], p.agg);
    if inputs == [] {
    } else {
      match inputs[0]
      case Silence =>
      case Closed(cause) =>
      case Broken(error, cause) =>
      case Beat =>
        PutInTurn(p.wire, c, KeepAlive);
        if !(p.committed && c.stream) {
          BridgedInTurn(p, c, inputs[1..]);
        } else if c.env.writes(p.wire.writes) {
          BridgedInTurn(p.(wire := Put(p.wire, c, KeepAlive)), c, inputs[1..]);
        }
      case Frame(events, done) =>
        var (q, over) := TakeEvents(p, c, events);
        TakeEventsInTurn(p, c, events);
        if over == LostClient {
        } else {
          EndingsInTurn(q.wire, c, [], q.agg);
          if over == GoesOn {
            FinishedInTurn(q, c, q.err);
            if !done { BridgedInTurn(q, c, inputs[1..]); }
          }
        }
    }
  }

  /** For every script: each piece of the body took a write of its own, in turn, and nothing is tried
      after the first write that fails. */
  lemma WrittenInTurn(c: Client)
    ensures InTurn(Attempted(c).wire, c)
  {
    if c.env.attempts(c.attempt).prepareError.None? && c.env.attempts(c.attempt).openError.None? {
      BridgedInTurn(IDLE, c, c.env.attempts(c.attempt).inputs);
    }
  }
}
