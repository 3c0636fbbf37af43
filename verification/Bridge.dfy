/** What one attempt makes of the upstream's events: the bridge of backend/pipeline/bridge.go
    as a function from the script of an attempt to what the client gets and how it ended.

    `Session` in `Serving` is proved to do exactly this; the lemmas here say what it means:
    what the client may have received when the attempt can be repeated, which events reach it
    and in which order, and when an attempt counts as a success. */
module Bridging {
  import opened Ir
  import opened Aggregate
  import opened Collector
  import opened Replay
  import opened Seqs

  // ----- errors and outcomes -----

  datatype ErrorKind =
    | ContextExceededKind | NotFoundKind | TransportKind | RateLimitKind | UpstreamKind | TimeoutKind
    | InternalKind | InvalidRequestKind | AuthKind | CanceledKind | OtherKind

  datatype Error = Error(kind: ErrorKind, code: string, retryable: bool, sideEffectRisk: bool)

  function NewError(kind: ErrorKind, code: string): Error {
    Error(kind, code, kind in {RateLimitKind, UpstreamKind, TimeoutKind, TransportKind}, false)
  }

  const INCOMPLETE_STREAM := "incomplete_stream"
  const RESPONSE_TOO_LARGE := "response_too_large"

  datatype Outcome = Normal | Retrying | Abnormal | ContextExceeded | InvalidModel | Transport

  function OutcomeFor(e: Error): Outcome {
    match e.kind
    case ContextExceededKind => ContextExceeded
    case NotFoundKind => InvalidModel
    case TransportKind => Transport
    case RateLimitKind => Retrying
    case UpstreamKind => Retrying
    case TimeoutKind => Retrying
    case _ => Abnormal
  }

  function Downgrade(o: Outcome): Outcome { if o == Retrying then Abnormal else o }

  // ----- the script -----

  /** Who is to blame when the stream is torn down. */
  datatype Teardown = UpstreamBroke | ClientLeft | BudgetSpent

  datatype Input =
    | Beat
    | Frame(events: seq<Event>, done: bool)
    | Broken(error: Error, cause: Teardown)
    | Closed(cause: Teardown)
    | Silence

  /** One attempt: the dispatcher's answer, the four clock readings around the two calls that
      leave the process, and what the upstream then delivers. */
  datatype Attempt = Attempt(
    dispatchError: Option<Error>, modelId: string,
    dispatchStart: int, dispatchEnd: int, upstreamStart: int, upstreamEnd: int,
    prepareError: Option<Error>, openError: Option<Error>, inputs: seq<Input>)

  /** `classify` is the error that an upstream's error frame stands for; `takes` is how many
      reports the consumer beside the request has taken on since the attempt before. */
  datatype World = World(
    start: int, attempts: nat -> Attempt, endAfter: nat -> int, takes: nat -> nat,
    writes: nat -> bool, encodes: Event -> bool, encodesWhole: bool,
    classify: string -> Error, valid: string -> bool, proj: Projection)

  // ----- what the client gets -----

  datatype Piece =
    | FromEvent(ev: Event) | Closing | KeepAlive | ErrorFrame | WholeResponse(response: Response) | ErrorBody

  /** A piece of the body, with the attempt that was under way. */
  datatype Written = Written(attempt: nat, piece: Piece)

  /** The response as the client sees it: how often a header went out, the pieces that got
      through, how many writes were tried, and whether the client has left. */
  datatype Wire = Wire(headers: nat, body: seq<Written>, writes: nat, left: bool)

  const BLANK := Wire(0, [], 0, false)

  /** `err` is absent on success; `committed` means the target is locked. */
  datatype Result = Result(err: Option<Error>, committed: bool)

  datatype Ended = Ended(wire: Wire, outcome: Outcome, res: Result)

  /** One attempt on behalf of one client. */
  datatype Client = Client(attempt: nat, stream: bool, env: World)

  predicate IsTerminator(ev: Event) { ev.MessageDelta? || ev.MessageStop? }

  function WithHeader(w: Wire): Wire { w.(headers := w.headers + 1) }

  function Put(w: Wire, c: Client, piece: Piece): Wire {
    if c.env.writes(w.writes) then w.(writes := w.writes + 1, body := w.body + [Written(c.attempt, piece)])
    else w.(writes := w.writes + 1, left := true)
  }

  /** The client turns out to be gone when this event is written. */
  predicate Loses(w: Wire, c: Client, ev: Event) { c.env.encodes(ev) && !c.env.writes(w.writes) }

  /** An event the client's protocol cannot express is skipped. */
  function PutEvent(w: Wire, c: Client, ev: Event): Wire {
    if c.env.encodes(ev) then Put(w, c, FromEvent(ev)) else w
  }

  function PutEvents(w: Wire, c: Client, evs: seq<Event>): (Wire, bool)
    decreases |evs|
  {
    if evs == [] then (w, true)
    else if Loses(w, c, evs[0]) then (PutEvent(w, c, evs[0]), false)
    else PutEvents(PutEvent(w, c, evs[0]), c, evs[1..])
  }

  function Failed(w: Wire, c: Client): Wire { Put(WithHeader(w), c, ErrorBody) }

  function Success(w: Wire, c: Client, tail: seq<Event>, agg: Agg): Wire {
    if c.stream then
      var (out, ok) := PutEvents(w, c, tail);
      if ok then Put(out, c, Closing) else out
    else if !c.env.encodesWhole then Failed(w, c)
    else Put(WithHeader(w), c, WholeResponse(ResponseOf(agg, c.env.proj)))
  }

  // ----- the bridge -----

  /** The loop state: what the client has, what was collected, whether the target is locked,
      the terminators held back, and the error the upstream put into the stream. */
  datatype Pump = Pump(wire: Wire, agg: Agg, committed: bool, tail: seq<Event>, err: Option<Error>)

  const IDLE := Pump(BLANK, NEW_AGG, false, [], None)

  datatype Over = GoesOn | GateTripped | LostClient

  /** A stream that stopped in the middle of a text says so. */
  function Cut(agg: Agg, proj: Projection): seq<Event> {
    if (exists i :: i in agg.order && i !in agg.closed) && ResponseOf(agg, proj).stopReason == StopUnset
    then [MessageDelta(StopMaxTokens, "", None, NO_RECEIPTS, None)] else []
  }

  function Incomplete(): Error { NewError(UpstreamKind, INCOMPLETE_STREAM) }

  /** The upstream said all it had to say. */
  function Completed(p: Pump, c: Client): Ended {
    if !p.committed then Ended(p.wire, Retrying, Result(Some(Incomplete()), false))
    else if UnsafeBlocks(p.agg, c.env.proj, c.env.valid) != [] then
      if !c.stream then Ended(p.wire, Retrying, Result(Some(Incomplete()), false))
      else Ended(Put(p.wire, c, ErrorFrame), Abnormal, Result(Some(Incomplete()), true))
    else
      var cut := Cut(p.agg, c.env.proj);
      Ended(Success(p.wire, c, p.tail + cut, AddAll(p.agg, cut)), Normal, Result(None, false))
  }

  function Broke(p: Pump, c: Client, err: Error): Ended {
    if !p.committed then Ended(p.wire, OutcomeFor(err), Result(Some(err), false))
    else Ended(if c.stream then Put(p.wire, c, ErrorFrame) else Failed(p.wire, c), Abnormal, Result(Some(err), true))
  }

  function Finished(p: Pump, c: Client, err: Option<Error>): Ended {
    if err.None? then Completed(p, c) else Broke(p, c, err.value)
  }

  /** The client went away: nothing more is written, and nothing is retried. */
  function Gone(w: Wire): Ended {
    Ended(w.(left := true), Normal, Result(Some(NewError(CanceledKind, "")), true))
  }

  /** One place decides who broke the stream off: our own budget before the client, the
      client before the upstream, and what the upstream said before what we make of it. */
  function TornDown(p: Pump, c: Client, cause: Teardown, streamErr: Option<Error>, upstreamErr: Error): Ended {
    match cause
    case BudgetSpent => Broke(p, c, NewError(TimeoutKind, "").(retryable := false))
    case ClientLeft => Gone(p.wire)
    case UpstreamBroke => Broke(p, c, if streamErr.Some? then streamErr.value else upstreamErr)
  }

  function TakeEvent(p: Pump, c: Client, ev: Event): (Pump, Over) {
    if ev.StreamError? then (p.(err := Some(c.env.classify(ev.message))), GoesOn)
    else
      var begun := if !p.committed && c.stream then WithHeader(p.wire) else p.wire;
      var q := p.(agg := Add(p.agg, ev), committed := true, wire := begun);
      if q.agg.ledger.overflow != Fits then (q, GateTripped)
      else if IsTerminator(ev) then (q.(tail := q.tail + [ev]), GoesOn)
      else if !c.stream then (q, GoesOn)
      else (q.(wire := PutEvent(begun, c, ev)), if Loses(begun, c, ev) then LostClient else GoesOn)
  }

  function TakeEvents(p: Pump, c: Client, evs: seq<Event>): (Pump, Over)
    decreases |evs|
  {
    if evs == [] then (p, GoesOn)
    else
      var (q, over) := TakeEvent(p, c, evs[0]);
      if over == GoesOn then TakeEvents(q, c, evs[1..]) else (q, over)
  }

  function TooLarge(): Error { NewError(UpstreamKind, RESPONSE_TOO_LARGE).(retryable := false) }

  function Bridged(p: Pump, c: Client, inputs: seq<Input>): Ended
    decreases |inputs|
  {
    if inputs == [] then Broke(p, c, NewError(TimeoutKind, ""))
    else
      match inputs[0]
      case Silence => Broke(p, c, NewError(TimeoutKind, ""))
      case Closed(cause) => TornDown(p, c, cause, None, NewError(UpstreamKind, ""))
      case Broken(error, cause) => TornDown(p, c, cause, p.err, error)
      case Beat =>
        if !(p.committed && c.stream) then Bridged(p, c, inputs[1..])
        else
          var w := Put(p.wire, c, KeepAlive);
          if c.env.writes(p.wire.writes) then Bridged(p.(wire := w), c, inputs[1..]) else Gone(w)
      case Frame(events, done) =>
        var (q, over) := TakeEvents(p, c, events);
        if over == LostClient then Gone(q.wire)
        else if over == GateTripped then Broke(q, c, TooLarge())
        else if done then Finished(q, c, q.err)
        else Bridged(q, c, inputs[1..])
  }

  /** The whole attempt, once a target has been assigned. */
  function Attempted(c: Client): Ended {
    var a := c.env.attempts(c.attempt);
    if a.prepareError.Some? then
      Ended(BLANK, InvalidModel, Result(Some(a.prepareError.value.(retryable := true)), false))
    else if a.openError.Some? then Ended(BLANK, OutcomeFor(a.openError.value), Result(a.openError, false))
    else Bridged(IDLE, c, a.inputs)
  }

  /** Another target may be tried. */
  predicate MayRetry(r: Result) {
    r.err.Some? && !r.committed && r.err.value.retryable && !r.err.value.sideEffectRisk
  }

  // ----- what an attempt hears -----

  /** Everything but the error events. */
  function Proper(evs: seq<Event>): seq<Event> {
    if evs == [] then [] else (if evs[0].StreamError? then [] else [evs[0]]) + Proper(evs[1..])
  }

  /** The events up to the frame that concludes the stream, or to where it broke off. */
  function Heard(inputs: seq<Input>): seq<Event> {
    if inputs == [] then []
    else
      match inputs[0]
      case Frame(events, done) => Proper(events) + (if done then [] else Heard(inputs[1..]))
      case Beat => Heard(inputs[1..])
      case _ => []
  }

  /** The upstream gets to its concluding frame. */
  predicate Concludes(inputs: seq<Input>) {
    inputs != [] &&
    match inputs[0]
    case Frame(_, done) => done || Concludes(inputs[1..])
    case Beat => Concludes(inputs[1..])
    case _ => false
  }

  predicate HasError(evs: seq<Event>) { exists k :: 0 <= k < |evs| && evs[k].StreamError? }

  /** On the way there it reports an error inside the stream. */
  predicate Complains(inputs: seq<Input>) {
    inputs != [] &&
    match inputs[0]
    case Frame(events, done) => HasError(events) || (!done && Complains(inputs[1..]))
    case Beat => Complains(inputs[1..])
    case _ => false
  }

  function Keep(evs: seq<Event>, f: Event -> bool): seq<Event> {
    if evs == [] then []
    else Keep(evs[..|evs| - 1], f) + (if f(evs[|evs| - 1]) then [evs[|evs| - 1]] else [])
  }

  lemma {:induction false} KeepConcat(a: seq<Event>, b: seq<Event>, f: Event -> bool)
    ensures Keep(a + b, f) == Keep(a, f) + Keep(b, f)
  {
    if b == [] {
      assert a + b == a;
    } else {
      assert (a + b)[..|a + b| - 1] == a + b[..|b| - 1];
      KeepConcat(a, b[..|b| - 1], f);
    }
  }

  lemma KeepOne(ev: Event, f: Event -> bool)
    ensures Keep([ev], f) == if f(ev) then [ev] else []
  {
    assert [ev][..0] == [];
  }

  /** The events in a body, keep-alives and the like left out. */
  function EventsOf(body: seq<Written>): seq<Event> {
    if body == [] then []
    else
      var piece := body[|body| - 1].piece;
      EventsOf(body[..|body| - 1]) + (if piece.FromEvent? then [piece.ev] else [])
  }

  lemma EventsMore(body: seq<Written>, x: Written)
    ensures EventsOf(body + [x]) == EventsOf(body) + (if x.piece.FromEvent? then [x.piece.ev] else [])
  {
    assert (body + [x])[..|body|] == body;
  }

  /** What a streaming client is shown while the stream goes on. */
  function Shown(c: Client): Event -> bool { ev => !IsTerminator(ev) && c.env.encodes(ev) }

  function Terminators(): Event -> bool { ev => IsTerminator(ev) }

  // ----- what the client may have received -----

  ghost predicate OnlyFrom(body: seq<Written>, attempt: nat) {
    forall k :: 0 <= k < |body| ==> body[k].attempt == attempt
  }

  /** Events and keep-alives: nothing that ends a stream. */
  ghost predicate Flowing(body: seq<Written>) {
    forall k :: 0 <= k < |body| ==> body[k].piece.FromEvent? || body[k].piece.KeepAlive?
  }

  /** The closing frames were not written. */
  ghost predicate Unclosed(body: seq<Written>) { forall k :: 0 <= k < |body| ==> !body[k].piece.Closing? }

  /** The header is out, and what follows it is this attempt's and begins as `evs` does. */
  ghost predicate Partial(w: Wire, c: Client, evs: seq<Event>) {
    w.headers == 1 && OnlyFrom(w.body, c.attempt) && Flowing(w.body) && EventsOf(w.body) <= evs
  }

  /** The header is out, and the client has all of `evs`. */
  ghost predicate Showing(w: Wire, c: Client, evs: seq<Event>) {
    w.headers == 1 && OnlyFrom(w.body, c.attempt) && Flowing(w.body) && EventsOf(w.body) == evs && !w.left
  }

  /** The header is out, and the client has all of `evs` and the closing frames behind it. */
  ghost predicate Complete(w: Wire, c: Client, evs: seq<Event>) {
    && w.headers == 1 && OnlyFrom(w.body, c.attempt) && EventsOf(w.body) == evs && !w.left
    && w.body != [] && w.body[|w.body| - 1].piece == Closing && Flowing(w.body[..|w.body| - 1])
  }

  /** The pump after `heard`. */
  ghost predicate Pumped(p: Pump, c: Client, heard: seq<Event>) {
    && p.agg == AddAll(NEW_AGG, heard) && p.agg.ledger.overflow == Fits
    && (p.committed <==> heard != [])
    && p.tail == Keep(heard, Terminators())
    && (if p.committed && c.stream then Showing(p.wire, c, Keep(heard, Shown(c))) else p.wire == BLANK)
  }

  lemma PutShows(w: Wire, c: Client, piece: Piece, evs: seq<Event>)
    requires Showing(w, c, evs) && (piece.FromEvent? || piece.KeepAlive?)
    ensures var out := Put(w, c, piece);
      if out.left then Partial(out, c, evs)
      else Showing(out, c, evs + (if piece.FromEvent? then [piece.ev] else []))
  {
    EventsMore(w.body, Written(c.attempt, piece));
  }

  lemma PutCloses(w: Wire, c: Client, evs: seq<Event>)
    requires Showing(w, c, evs)
    ensures var out := Put(w, c, Closing);
      if out.left then Partial(out, c, evs) else Complete(out, c, evs)
  {
    EventsMore(w.body, Written(c.attempt, Closing));
    assert (w.body + [Written(c.attempt, Closing)])[..|w.body|] == w.body;
  }

  lemma PutEventShows(w: Wire, c: Client, ev: Event, evs: seq<Event>)
    requires Showing(w, c, evs)
    ensures var out := PutEvent(w, c, ev);
      if Loses(w, c, ev) then Partial(out, c, evs)
      else Showing(out, c, evs + (if c.env.encodes(ev) then [ev] else []))
  {
    PutShows(w, c, FromEvent(ev), evs);
  }

  lemma KeepFirst(evs: seq<Event>, f: Event -> bool)
    requires evs != []
    ensures Keep(evs, f) == (if f(evs[0]) then [evs[0]] else []) + Keep(evs[1..], f)
  {
    HeadTail(evs, 0);
    KeepConcat([evs[0]], evs[1..], f);
    KeepOne(evs[0], f);
  }

  lemma PartialBefore(w: Wire, c: Client, a: seq<Event>, b: seq<Event>)
    requires Partial(w, c, a)
    ensures Partial(w, c, a + b)
  {}

  /** What is left of `evs` gets through in order, or a beginning of it. */
  lemma {:induction false} PutEventsShow(w: Wire, c: Client, evs: seq<Event>, shown: seq<Event>)
    requires Showing(w, c, shown)
    ensures var (out, ok) := PutEvents(w, c, evs);
      var all := shown + Keep(evs, c.env.encodes);
      if ok then Showing(out, c, all) else out.left && Partial(out, c, all)
    decreases |evs|
  {
    if evs == [] {
      ConcatNothing(shown);
    } else {
      var ev := evs[0];
      var here := if c.env.encodes(ev) then [ev] else [];
      PutEventShows(w, c, ev, shown);
      KeepFirst(evs, c.env.encodes);
      Associate(shown, here, Keep(evs[1..], c.env.encodes));
      if Loses(w, c, ev) {
        PartialBefore(PutEvent(w, c, ev), c, shown, Keep(evs, c.env.encodes));
      } else {
        PutEventsShow(PutEvent(w, c, ev), c, evs[1..], shown + here);
      }
    }
  }

  lemma PumpedMore(heard: seq<Event>, ev: Event, c: Client)
    ensures var all := heard + [ev];
      && AddAll(NEW_AGG, all) == Add(AddAll(NEW_AGG, heard), ev)
      && Keep(all, Terminators()) == Keep(heard, Terminators()) + (if IsTerminator(ev) then [ev] else [])
      && Keep(all, Shown(c)) == Keep(heard, Shown(c)) + (if Shown(c)(ev) then [ev] else [])
  {
    assert (heard + [ev])[..|heard|] == heard;
  }

  /** How far the client can have got when the events stop short of `all`. */
  ghost predicate Interrupted(q: Pump, over: Over, c: Client, all: seq<Event>) {
    && (over == GateTripped ==>
          && q.committed && AddAll(NEW_AGG, all).ledger.overflow != Fits
          && (if c.stream then Partial(q.wire, c, Keep(all, Shown(c))) && !q.wire.left else q.wire == BLANK))
    && (over == LostClient ==> c.stream && !Reliable(c) && Partial(q.wire, c, Keep(all, Shown(c))))
  }

  /** The client takes whatever is written. */
  ghost predicate Reliable(c: Client) { !c.stream || forall n: nat :: c.env.writes(n) }

  lemma TakeEventKeeps(p: Pump, c: Client, heard: seq<Event>, ev: Event)
    requires Pumped(p, c, heard) && !ev.StreamError?
    ensures var (q, over) := TakeEvent(p, c, ev);
      if over == GoesOn then Pumped(q, c, heard + [ev]) else Interrupted(q, over, c, heard + [ev])
  {
    PumpedMore(heard, ev, c);
    if c.stream {
      var begun := if !p.committed then WithHeader(p.wire) else p.wire;
      assert Showing(begun, c, Keep(heard, Shown(c)));
      PutEventShows(begun, c, ev, Keep(heard, Shown(c)));
    }
  }

  lemma InterruptedBefore(q: Pump, over: Over, c: Client, a: seq<Event>, b: seq<Event>)
    requires Interrupted(q, over, c, a)
    ensures Interrupted(q, over, c, a + b)
  {
    KeepConcat(a, b, Shown(c));
    AddAllConcat(NEW_AGG, a, b);
    OverflowRemains(AddAll(NEW_AGG, a), b);
  }

  /** The state after some events: still pumping, or interrupted. */
  ghost predicate Underway(q: Pump, over: Over, c: Client, heard: seq<Event>) {
    if over == GoesOn then Pumped(q, c, heard) else Interrupted(q, over, c, heard)
  }

  lemma TakenOne(p: Pump, c: Client, heard: seq<Event>, evs: seq<Event>)
    requires Pumped(p, c, heard) && evs != [] && !evs[0].StreamError?
    ensures var (q, over) := TakeEvent(p, c, evs[0]);
      && (over == GoesOn ==> Pumped(q, c, heard + [evs[0]]))
      && (over != GoesOn ==> Underway(q, over, c, heard + Proper(evs)))
    ensures heard + Proper(evs) == heard + [evs[0]] + Proper(evs[1..])
  {
    var (q, over) := TakeEvent(p, c, evs[0]);
    TakeEventKeeps(p, c, heard, evs[0]);
    assert heard + Proper(evs) == heard + [evs[0]] + Proper(evs[1..]);
    if over != GoesOn { InterruptedBefore(q, over, c, heard + [evs[0]], Proper(evs[1..])); }
  }

  lemma {:induction false} TakeEventsKeep(p: Pump, c: Client, heard: seq<Event>, evs: seq<Event>)
    requires Pumped(p, c, heard)
    ensures var (q, over) := TakeEvents(p, c, evs); Underway(q, over, c, heard + Proper(evs))
    decreases |evs|
  {
    if evs == [] {
      assert heard + [] == heard;
    } else {
      var (q, over) := TakeEvent(p, c, evs[0]);
      if evs[0].StreamError? {
        assert Pumped(q, c, heard) && Proper(evs) == Proper(evs[1..]);
        TakeEventsKeep(q, c, heard, evs[1..]);
      } else {
        TakenOne(p, c, heard, evs);
        if over == GoesOn { TakeEventsKeep(q, c, heard + [evs[0]], evs[1..]); }
      }
    }
  }

  // ----- what an attempt may leave behind -----

  function Ending(c: Client, heard: seq<Event>): seq<Event> {
    Keep(heard, Terminators()) + Cut(AddAll(NEW_AGG, heard), c.env.proj)
  }

  function Collected(c: Client, heard: seq<Event>): Response {
    ResponseOf(AddAll(AddAll(NEW_AGG, heard), Cut(AddAll(NEW_AGG, heard), c.env.proj)), c.env.proj)
  }

  /** A successful attempt that heard `heard`: a streaming client has all of it, in order, the
      terminators last, and then the closing frames, unless it left on the way; any other
      client has the collected response, whole. */
  ghost predicate Delivered(w: Wire, c: Client, heard: seq<Event>) {
    if c.stream then
      var all := Keep(heard, Shown(c)) + Keep(Ending(c, heard), c.env.encodes);
      if w.left then Partial(w, c, all) else Complete(w, c, all)
    else
      && w.headers == 1
      && w.body == if w.left then [] else
           [Written(c.attempt, if c.env.encodesWhole then WholeResponse(Collected(c, heard)) else ErrorBody)]
  }

  /** An attempt never goes half-way: if another target may be tried, nothing has reached the
      client; if it failed too late for that, a streaming client has a beginning of what was
      heard, no terminator and no closing frames; and success is delivery. */
  ghost predicate Fair(e: Ended, c: Client, heard: seq<Event>) {
    if e.res.err.None? then Delivered(e.wire, c, heard) && e.outcome == Normal
    else if !e.res.committed then e.wire == BLANK && e.outcome != Normal
    else
      && OnlyFrom(e.wire.body, c.attempt) && EventsOf(e.wire.body) <= Keep(heard, Shown(c)) && Unclosed(e.wire.body)
      && (if e.wire.headers == 0 then e.wire.left && e.wire.body == [] else e.wire.headers == 1)
  }

  lemma EndedBadly(w: Wire, c: Client, piece: Piece, shown: seq<Event>)
    requires Partial(w, c, shown) && (piece.ErrorFrame? || piece.ErrorBody?)
    ensures var out := Put(w, c, piece);
      OnlyFrom(out.body, c.attempt) && EventsOf(out.body) <= shown && Unclosed(out.body) && out.headers == 1
  {
    EventsMore(w.body, Written(c.attempt, piece));
    ConcatNothing(EventsOf(w.body));
    StaysUnclosed(w.body, Written(c.attempt, piece));
  }

  lemma StaysUnclosed(body: seq<Written>, x: Written)
    requires OnlyFrom(body, x.attempt) && Flowing(body) && !x.piece.Closing?
    ensures OnlyFrom(body + [x], x.attempt) && Unclosed(body + [x]) && Unclosed(body)
  {
    var all := body + [x];
    forall k | 0 <= k < |all| ensures all[k].attempt == x.attempt && !all[k].piece.Closing? {
      if k < |body| { assert all[k] == body[k]; }
    }
  }

  lemma FailedIsFair(p: Pump, c: Client, heard: seq<Event>, err: Error)
    requires if p.committed && c.stream then Partial(p.wire, c, Keep(heard, Shown(c))) else p.wire == BLANK
    ensures Fair(Broke(p, c, err), c, heard)
  {
    if p.committed && c.stream {
      EndedBadly(p.wire, c, ErrorFrame, Keep(heard, Shown(c)));
    } else if p.committed {
      EndedBadly(WithHeader(p.wire), c, ErrorBody, []);
    }
  }

  lemma GoneIsFair(w: Wire, c: Client, heard: seq<Event>)
    requires w == BLANK || Partial(w, c, Keep(heard, Shown(c)))
    ensures Fair(Gone(w), c, heard)
  {}

  lemma SuccessIsDelivered(p: Pump, c: Client, heard: seq<Event>)
    requires Pumped(p, c, heard) && p.committed
    ensures var cut := Cut(p.agg, c.env.proj);
      Delivered(Success(p.wire, c, p.tail + cut, AddAll(p.agg, cut)), c, heard)
  {
    if c.stream {
      var shown, tail := Keep(heard, Shown(c)), Ending(c, heard);
      PutEventsShow(p.wire, c, tail, shown);
      var (out, ok) := PutEvents(p.wire, c, tail);
      if ok { PutCloses(out, c, shown + Keep(tail, c.env.encodes)); }
    }
  }

  lemma {:induction false} AllTaken(w: Wire, c: Client, evs: seq<Event>)
    requires c.stream && Reliable(c) && !w.left
    ensures var (out, ok) := PutEvents(w, c, evs); ok && !out.left
    decreases |evs|
  {
    if evs == [] {
    } else {
      AllTaken(PutEvent(w, c, evs[0]), c, evs[1..]);
    }
  }

  lemma SuccessStays(w: Wire, c: Client, tail: seq<Event>, agg: Agg)
    requires c.stream && Reliable(c) && !w.left
    ensures !Success(w, c, tail, agg).left
  {
    AllTaken(w, c, tail);
    var (out, _) := PutEvents(w, c, tail);
    assert c.env.writes(out.writes);
  }

  lemma CompletedIsFair(p: Pump, c: Client, heard: seq<Event>)
    requires Pumped(p, c, heard)
    ensures Fair(Completed(p, c), c, heard)
    ensures c.stream && Reliable(c) && Completed(p, c).res.err.None? ==> !Completed(p, c).wire.left
  {
    if c.stream && Reliable(c) {
      var cut := Cut(p.agg, c.env.proj);
      SuccessStays(p.wire, c, p.tail + cut, AddAll(p.agg, cut));
    }
    if p.committed {
      if UnsafeBlocks(p.agg, c.env.proj, c.env.valid) == [] {
        SuccessIsDelivered(p, c, heard);
      } else if c.stream {
        FailedIsFair(p, c, heard, Incomplete());
      }
    }
  }

  // ----- the whole attempt -----

  /** Something was heard, no more than is accepted, and nothing that cannot be closed. */
  ghost predicate Whole(c: Client, heard: seq<Event>) {
    && heard != [] && AddAll(NEW_AGG, heard).ledger.overflow == Fits
    && UnsafeBlocks(AddAll(NEW_AGG, heard), c.env.proj, c.env.valid) == []
  }

  predicate Clean(inputs: seq<Input>) { Concludes(inputs) && !Complains(inputs) }

  lemma {:induction false} ErrorNoted(p: Pump, c: Client, evs: seq<Event>)
    ensures var (q, over) := TakeEvents(p, c, evs);
      over == GoesOn ==> (q.err.Some? <==> p.err.Some? || HasError(evs))
    decreases |evs|
  {
    if evs == [] {
    } else {
      var (q, over) := TakeEvent(p, c, evs[0]);
      if over == GoesOn { ErrorNoted(q, c, evs[1..]); }
      if HasError(evs) {
        var k :| 0 <= k < |evs| && evs[k].StreamError?;
        assert k > 0 ==> evs[1..][k - 1].StreamError?;
      }
      if HasError(evs[1..]) {
        var k :| 0 <= k < |evs[1..]| && evs[1..][k].StreamError?;
        assert evs[k + 1].StreamError?;
      }
    }
  }

  lemma TornDownIsFair(p: Pump, c: Client, heard: seq<Event>, cause: Teardown, err: Option<Error>, upstream: Error)
    requires Pumped(p, c, heard)
    ensures Fair(TornDown(p, c, cause, err, upstream), c, heard)
    ensures TornDown(p, c, cause, err, upstream).res.err.Some?
  {
    match cause
    case BudgetSpent => FailedIsFair(p, c, heard, NewError(TimeoutKind, "").(retryable := false));
    case ClientLeft => GoneIsFair(p.wire, c, heard);
    case UpstreamBroke => FailedIsFair(p, c, heard, if err.Some? then err.value else upstream);
  }

  /** The outcome is fair, success takes a clean and whole stream, and with a client that
      stays it takes nothing else and everything gets through. */
  ghost predicate Settled(e: Ended, c: Client, heard: seq<Event>, clean: bool) {
    && Fair(e, c, heard)
    && (e.res.err.None? ==> clean && Whole(c, heard))
    && (clean && Whole(c, heard) && Reliable(c) ==> e.res.err.None? && (c.stream ==> !e.wire.left))
  }

  ghost predicate Settles(p: Pump, c: Client, heard: seq<Event>, inputs: seq<Input>) {
    Settled(Bridged(p, c, inputs), c, heard + Heard(inputs), p.err.None? && Clean(inputs))
  }

  lemma HeardFrame(heard: seq<Event>, inputs: seq<Input>)
    requires inputs != [] && inputs[0].Frame?
    ensures heard + Heard(inputs)
         == heard + Proper(inputs[0].events) + (if inputs[0].done then [] else Heard(inputs[1..]))
  {}

  lemma BridgedFrame(p: Pump, c: Client, inputs: seq<Input>)
    requires inputs != [] && inputs[0].Frame?
    ensures var (q, over) := TakeEvents(p, c, inputs[0].events);
      Bridged(p, c, inputs) ==
        match over
        case LostClient => Gone(q.wire)
        case GateTripped => Broke(q, c, TooLarge())
        case GoesOn => if inputs[0].done then Finished(q, c, q.err) else Bridged(q, c, inputs[1..])
  {}

  lemma StoppedSettles(q: Pump, over: Over, c: Client, heard: seq<Event>, clean: bool)
    requires over != GoesOn && Interrupted(q, over, c, heard)
    ensures Settled(if over == LostClient then Gone(q.wire) else Broke(q, c, TooLarge()), c, heard, clean)
  {
    if over == LostClient { GoneIsFair(q.wire, c, heard); } else { FailedIsFair(q, c, heard, TooLarge()); }
  }

  lemma FrameStops(p: Pump, c: Client, heard: seq<Event>, inputs: seq<Input>)
    requires Pumped(p, c, heard) && inputs != [] && inputs[0].Frame?
    requires TakeEvents(p, c, inputs[0].events).1 != GoesOn
    ensures Settles(p, c, heard, inputs)
  {
    var evs := inputs[0].events;
    var (q, over) := TakeEvents(p, c, evs);
    var here, later := heard + Proper(evs), if inputs[0].done then [] else Heard(inputs[1..]);
    TakeEventsKeep(p, c, heard, evs);
    InterruptedBefore(q, over, c, here, later);
    HeardFrame(heard, inputs);
    BridgedFrame(p, c, inputs);
    StoppedSettles(q, over, c, here + later, p.err.None? && Clean(inputs));
  }

  lemma ConcludedSettles(q: Pump, c: Client, heard: seq<Event>)
    requires Pumped(q, c, heard)
    ensures Settled(Finished(q, c, q.err), c, heard, q.err.None?)
  {
    if q.err.None? { CompletedIsFair(q, c, heard); } else { FailedIsFair(q, c, heard, q.err.value); }
  }

  lemma FrameConcludes(p: Pump, c: Client, heard: seq<Event>, inputs: seq<Input>)
    requires Pumped(p, c, heard) && inputs != [] && inputs[0].Frame? && inputs[0].done
    requires TakeEvents(p, c, inputs[0].events).1 == GoesOn
    ensures Settles(p, c, heard, inputs)
  {
    var evs := inputs[0].events;
    var (q, _) := TakeEvents(p, c, evs);
    TakeEventsKeep(p, c, heard, evs);
    ConcludedSettles(q, c, heard + Proper(evs));
    HeardFrame(heard, inputs);
    ConcatNothing(heard + Proper(evs));
    BridgedFrame(p, c, inputs);
    CleanConcluded(p, c, inputs);
  }

  lemma CleanConcluded(p: Pump, c: Client, inputs: seq<Input>)
    requires inputs != [] && inputs[0].Frame? && inputs[0].done
    requires TakeEvents(p, c, inputs[0].events).1 == GoesOn
    ensures var q := TakeEvents(p, c, inputs[0].events).0; (p.err.None? && Clean(inputs)) == q.err.None?
  {
    ErrorNoted(p, c, inputs[0].events);
  }

  lemma FrameSettles(p: Pump, c: Client, heard: seq<Event>, inputs: seq<Input>)
    requires inputs != [] && inputs[0].Frame? && !inputs[0].done
    requires var (q, over) := TakeEvents(p, c, inputs[0].events);
      over == GoesOn && Settles(q, c, heard + Proper(inputs[0].events), inputs[1..])
    ensures Settles(p, c, heard, inputs)
  {
    HeardFrame(heard, inputs);
    BridgedFrame(p, c, inputs);
    CleanFrame(p, c, inputs);
  }

  lemma CleanFrame(p: Pump, c: Client, inputs: seq<Input>)
    requires inputs != [] && inputs[0].Frame? && !inputs[0].done
    requires TakeEvents(p, c, inputs[0].events).1 == GoesOn
    ensures var q := TakeEvents(p, c, inputs[0].events).0;
      (p.err.None? && Clean(inputs)) == (q.err.None? && Clean(inputs[1..]))
  {
    ErrorNoted(p, c, inputs[0].events);
  }

  lemma BeatSettles(p: Pump, c: Client, heard: seq<Event>, inputs: seq<Input>)
    requires Pumped(p, c, heard) && inputs != [] && inputs[0].Beat? && p.committed && c.stream
    requires var w := Put(p.wire, c, KeepAlive);
      !w.left ==> Settles(p.(wire := w), c, heard, inputs[1..])
    ensures Settles(p, c, heard, inputs)
  {
    var w, later := Put(p.wire, c, KeepAlive), Heard(inputs[1..]);
    PutShows(p.wire, c, KeepAlive, Keep(heard, Shown(c)));
    KeepConcat(heard, later, Shown(c));
    if w.left { GoneIsFair(w, c, heard + later); }
  }

  lemma {:induction false} AttemptSettles(p: Pump, c: Client, heard: seq<Event>, inputs: seq<Input>)
    requires Pumped(p, c, heard)
    ensures Settles(p, c, heard, inputs)
    decreases |inputs|
  {
    if inputs == [] || inputs[0].Silence? {
      assert heard + [] == heard;
      FailedIsFair(p, c, heard, NewError(TimeoutKind, ""));
    } else {
      match inputs[0]
      case Closed(cause) =>
        assert heard + [] == heard;
        TornDownIsFair(p, c, heard, cause, None, NewError(UpstreamKind, ""));
      case Broken(error, cause) =>
        assert heard + [] == heard;
        TornDownIsFair(p, c, heard, cause, p.err, error);
      case Beat =>
        if p.committed && c.stream {
          var w := Put(p.wire, c, KeepAlive);
          PutShows(p.wire, c, KeepAlive, Keep(heard, Shown(c)));
          if !w.left { AttemptSettles(p.(wire := w), c, heard, inputs[1..]); }
          BeatSettles(p, c, heard, inputs);
        } else {
          AttemptSettles(p, c, heard, inputs[1..]);
        }
      case Frame(events, done) =>
        var (q, over) := TakeEvents(p, c, events);
        if over != GoesOn {
          FrameStops(p, c, heard, inputs);
        } else if done {
          FrameConcludes(p, c, heard, inputs);
        } else {
          TakeEventsKeep(p, c, heard, events);
          AttemptSettles(q, c, heard + Proper(events), inputs[1..]);
          FrameSettles(p, c, heard, inputs);
        }
    }
  }

  /** For every script of an attempt, whatever the upstream does and whenever the client
      leaves: the outcome is fair to what was heard, and it is a success only when the
      upstream concluded without an error, within the limits, and with nothing left broken. */
  lemma AttemptIsFair(c: Client)
    ensures var a, e := c.env.attempts(c.attempt), Attempted(c);
      && Fair(e, c, if a.prepareError.Some? || a.openError.Some? then [] else Heard(a.inputs))
      && (e.res.err.None? ==>
            a.prepareError.None? && a.openError.None? && Clean(a.inputs) && Whole(c, Heard(a.inputs)))
  {
    var a := c.env.attempts(c.attempt);
    if a.prepareError.None? && a.openError.None? {
      AttemptSettles(IDLE, c, [], a.inputs);
      assert [] + Heard(a.inputs) == Heard(a.inputs);
    }
  }

  /** With a client that stays to the end, that is all it takes, and such a client gets it all. */
  lemma SucceedsExactlyWhenComplete(c: Client)
    requires Reliable(c)
    ensures var a := c.env.attempts(c.attempt);
      Attempted(c).res.err.None?
      <==> a.prepareError.None? && a.openError.None? && Clean(a.inputs) && Whole(c, Heard(a.inputs))
    ensures c.stream && Attempted(c).res.err.None? ==> !Attempted(c).wire.left
  {
    var a := c.env.attempts(c.attempt);
    if a.prepareError.None? && a.openError.None? {
      AttemptSettles(IDLE, c, [], a.inputs);
      assert [] + Heard(a.inputs) == Heard(a.inputs);
    }
  }
}
