/** The retry loop, the bridge and the Anthropic encoder together: what a streaming client
    reads, frame by frame, and what it may conclude from it.

    Here every event of the body is one handed to the encoder; the frames the client gets are
    those the encoder makes of it, possibly none. */
module Delivery {
  import opened Ir
  import opened Aggregate
  import opened Bridging
  import opened Serving
  import opened Collector
  import opened Replay
  import opened Seqs
  import Anthropic = AnthropicStream
  import Grammar = AnthropicGrammar
  import Gemini = GeminiStream
  import GeminiGrammar
  import ReplayStream

  // ----- the frames of a body -----

  /** The encoder's answer to a piece of the body.  An error frame is followed by the closing
      frames, as every end of a stream is. */
  function Say(s: Anthropic.State, piece: Piece, fam: Anthropic.Family): Anthropic.Step {
    match piece
    case FromEvent(ev) => Anthropic.Encode(s, ev, fam)
    case Closing => Anthropic.Finish(s)
    case ErrorFrame =>
      var said := Anthropic.Encode(s, StreamError(""), fam);
      var closed := Anthropic.Finish(said.next);
      Anthropic.Step(closed.next, said.frames + closed.frames, said.failed)
    case KeepAlive => Anthropic.Step(s, [Anthropic.FPing], false)
    case _ => Anthropic.Step(s, [], false)
  }

  function Said(body: seq<Written>, fam: Anthropic.Family): Anthropic.Step {
    if body == [] then Anthropic.Step(Anthropic.FRESH, [], false)
    else
      var front := Said(body[..|body| - 1], fam);
      var last := Say(front.next, body[|body| - 1].piece, fam);
      Anthropic.Step(last.next, front.frames + last.frames, front.failed || last.failed)
  }

  /** Where the frames take the client. */
  function Read(frames: seq<Anthropic.Frame>): Option<Grammar.Client> {
    Grammar.Follow(Grammar.NEW_CLIENT, frames)
  }

  /** The frames were a word of the client's grammar, with every block stopped and
      `message_stop` at the end. */
  predicate Satisfied(end: Option<Grammar.Client>) {
    end.Some? && end.value.phase == Grammar.Finished && end.value.open == {}
  }

  /** The client has read a complete message. */
  predicate ReadsComplete(w: Wire, fam: Anthropic.Family) { Satisfied(Read(Said(w.body, fam).frames)) }

  lemma {:induction false} FlowingSays(body: seq<Written>, fam: Anthropic.Family)
    requires Flowing(body)
    ensures var run := Grammar.EncodeAll(Anthropic.FRESH, EventsOf(body), fam);
      Said(body, fam).next == run.next && Read(Said(body, fam).frames) == Read(run.frames)
  {
    if body == [] {
    } else {
      var front, piece := body[..|body| - 1], body[|body| - 1].piece;
      FlowingSays(front, fam);
      var said, run := Said(front, fam), Grammar.EncodeAll(Anthropic.FRESH, EventsOf(front), fam);
      assert body[|body| - 1].piece.FromEvent? || body[|body| - 1].piece.KeepAlive?;
      Grammar.FollowConcat(Grammar.NEW_CLIENT, said.frames, Say(said.next, piece, fam).frames);
      if piece.FromEvent? {
        Grammar.EncodedMore(Anthropic.FRESH, EventsOf(front), piece.ev, fam);
        Grammar.FollowConcat(Grammar.NEW_CLIENT, run.frames, Anthropic.Encode(run.next, piece.ev, fam).frames);
      } else {
        ConcatNothing(EventsOf(front));
        if Read(said.frames).Some? { Grammar.FollowOne(Read(said.frames).value, Anthropic.FPing); }
      }
    }
  }

  /** A body that was closed reads like the transcript of its events. */
  lemma ClosedReads(body: seq<Written>, fam: Anthropic.Family)
    requires body != [] && body[|body| - 1].piece == Closing && Flowing(body[..|body| - 1])
    ensures Read(Said(body, fam).frames) == Read(Grammar.Transcript(EventsOf(body), fam))
  {
    var front := body[..|body| - 1];
    FlowingSays(front, fam);
    ConcatNothing(EventsOf(front));
    var said, run := Said(front, fam), Grammar.EncodeAll(Anthropic.FRESH, EventsOf(front), fam);
    Grammar.FollowConcat(Grammar.NEW_CLIENT, said.frames, Anthropic.Finish(said.next).frames);
    Grammar.FollowConcat(Grammar.NEW_CLIENT, run.frames, Anthropic.Finish(run.next).frames);
  }

  // ----- a failure never looks complete -----

  ghost predicate NoStop(frames: seq<Anthropic.Frame>) {
    forall k :: 0 <= k < |frames| ==> !frames[k].FMessageStop?
  }

  lemma {:induction false} UnfinishedWithoutStop(c: Grammar.Client, frames: seq<Anthropic.Frame>)
    requires c.phase != Grammar.Finished && NoStop(frames)
    ensures var end := Grammar.Follow(c, frames); end.Some? ==> end.value.phase != Grammar.Finished
    decreases frames
  {
    if frames == [] {
    } else {
      match Grammar.Accept(c, frames[0])
      case None =>
      case Some(next) => UnfinishedWithoutStop(next, frames[1..]);
    }
  }

  lemma ClosingHasNoStop(s: Anthropic.State)
    ensures NoStop(Anthropic.CloseAll(s).frames)
  {
    Grammar.CloseEachFrames(s, s.order);
  }

  lemma ConclusionHasNoStop(s: Anthropic.State, reason: StopReason, sequence: string)
    ensures NoStop(Anthropic.Conclude(s, reason, sequence).frames)
  {
    ClosingHasNoStop(Anthropic.Start(s, "", "").next);
  }

  lemma CitationsHaveNoStop(index: int, text: string, cs: seq<Citation>)
    ensures NoStop(Anthropic.CitationFrames(index, text, cs))
  {
    Grammar.CitationFramesAreDeltas(index, text, cs);
    var frames := Anthropic.CitationFrames(index, text, cs);
    forall k | 0 <= k < |frames| ensures !frames[k].FMessageStop? { assert frames[k] in frames; }
  }

  lemma DeltaHasNoStop(s: Anthropic.State, index: int, kind: Anthropic.DeltaKind, text: string, blank: BlockKind,
                       fam: Anthropic.Family)
    ensures NoStop(Anthropic.Delta(s, index, kind, text, blank, fam).frames)
  {}

  lemma NoStopUnlessAsked(s: Anthropic.State, ev: Event, fam: Anthropic.Family)
    requires !ev.MessageStop?
    ensures NoStop(Anthropic.Encode(s, ev, fam).frames)
  {
    match ev
    case TextDelta(index, text) =>
      var told := s.(text := s.text[index := Anthropic.TextSoFar(s, index) + text]);
      DeltaHasNoStop(told, index, Anthropic.DeltaText, text, BlockText, fam);
    case ThinkingDelta(index, text) => DeltaHasNoStop(s, index, Anthropic.DeltaThinking, text, BlockThinking, fam);
    case SigDelta(index, text, _) => DeltaHasNoStop(s, index, Anthropic.DeltaSignature, text, BlockThinking, fam);
    case ToolInput(index, text) => DeltaHasNoStop(s, index, Anthropic.DeltaInputJson, text, BlockToolUse, fam);
    case CitationDelta(index, cs) => CitationsHaveNoStop(index, Anthropic.TextSoFar(s, index), cs);
    case MessageDelta(reason, sequence, _, _, _) => ConclusionHasNoStop(s, reason, sequence);
    case StreamError(_) => ClosingHasNoStop(s);
    case _ =>
  }

  lemma NoStopSaid(s: Anthropic.State, piece: Piece, fam: Anthropic.Family)
    requires !piece.Closing? && (piece.FromEvent? ==> !piece.ev.MessageStop?)
    ensures NoStop(Say(s, piece, fam).frames)
  {
    match piece
    case FromEvent(ev) => NoStopUnlessAsked(s, ev, fam);
    case ErrorFrame => NoStopUnlessAsked(s, StreamError(""), fam);
    case _ =>
  }

  lemma {:induction false} UnclosedHasNoStop(body: seq<Written>, fam: Anthropic.Family)
    requires Unclosed(body) && forall ev :: ev in EventsOf(body) ==> !ev.MessageStop?
    ensures NoStop(Said(body, fam).frames)
  {
    if body == [] {
    } else {
      var front, piece := body[..|body| - 1], body[|body| - 1].piece;
      UnclosedHasNoStop(front, fam);
      NoStopSaid(Said(front, fam).next, piece, fam);
    }
  }

  lemma {:induction false} KeptPass(evs: seq<Event>, f: Event -> bool)
    ensures forall ev :: ev in Keep(evs, f) ==> f(ev) && ev in evs
  {
    if evs == [] {
    } else {
      KeptPass(evs[..|evs| - 1], f);
    }
  }

  /** Whatever went wrong and whenever: a streaming client that is not told of a success never
      reads a complete message. */
  lemma FailureNeverLooksComplete(c: Client, fam: Anthropic.Family)
    requires c.stream && Attempted(c).res.err.Some?
    ensures !ReadsComplete(Attempted(c).wire, fam)
  {
    var a, e := c.env.attempts(c.attempt), Attempted(c);
    AttemptIsFair(c);
    var heard := if a.prepareError.Some? || a.openError.Some? then [] else Heard(a.inputs);
    KeptPass(heard, Shown(c));
    var shown := EventsOf(e.wire.body);
    assert shown <= Keep(heard, Shown(c));
    forall ev | ev in shown ensures !ev.MessageStop? {
      assert ev in Keep(heard, Shown(c)) && Shown(c)(ev);
    }
    UnclosedHasNoStop(e.wire.body, fam);
    UnfinishedWithoutStop(Grammar.NEW_CLIENT, Said(e.wire.body, fam).frames);
  }

  // ----- a success is complete, but for one thing -----

  /** Every event is handed to the encoder. */
  ghost predicate HandsOver(c: Client) { c.stream && forall ev :: c.env.encodes(ev) }

  predicate Body(evs: seq<Event>) { forall k :: 0 <= k < |evs| ==> !IsTerminator(evs[k]) && !evs[k].StreamError? }

  predicate Tail(evs: seq<Event>) { forall k :: 0 <= k < |evs| ==> IsTerminator(evs[k]) }

  /** No message delta comes behind another terminator. */
  predicate OneDelta(tail: seq<Event>) { forall k :: 1 <= k < |tail| ==> !tail[k].MessageDelta? }

  /** The encoder has not begun to end the message. */
  ghost predicate Midway(s: Anthropic.State) { !s.sentDelta && !s.stopped && !s.errored }

  lemma BodyStaysMidway(s: Anthropic.State, ev: Event, fam: Anthropic.Family)
    requires Midway(s) && !IsTerminator(ev) && !ev.StreamError?
    ensures Midway(Anthropic.Encode(s, ev, fam).next)
  {}

  lemma {:induction false} BodyIsMidway(body: seq<Event>, fam: Anthropic.Family)
    requires Body(body)
    ensures Midway(Grammar.EncodeAll(Anthropic.FRESH, body, fam).next)
  {
    if body == [] {
    } else {
      BodyIsMidway(body[..|body| - 1], fam);
      BodyStaysMidway(Grammar.EncodeAll(Anthropic.FRESH, body[..|body| - 1], fam).next, body[|body| - 1], fam);
    }
  }

  /** The encoder has ended the message, or is about to. */
  ghost predicate Concluding(s: Anthropic.State) { s.sentDelta && !s.errored }

  lemma TerminatorConcludes(s: Anthropic.State, ev: Event, fam: Anthropic.Family)
    requires (Midway(s) || Concluding(s)) && IsTerminator(ev)
    ensures Concluding(Anthropic.Encode(s, ev, fam).next)
    ensures Grammar.Admissible(s, ev, fam) <==> (ev.MessageDelta? ==> !s.sentDelta)
  {
    var begun := Anthropic.Start(s, "", "").next;
    Grammar.CloseEachFrames(begun, begun.order);
  }

  /** After `body`, exactly the tails with one message delta in front are admissible. */
  ghost predicate Ends(body: seq<Event>, tail: seq<Event>, fam: Anthropic.Family) {
    var s := Grammar.EncodeAll(Anthropic.FRESH, body + tail, fam).next;
    && (if tail == [] then Midway(s) else Concluding(s))
    && (Grammar.AllAdmissible(Anthropic.FRESH, body + tail, fam)
        <==> Grammar.AllAdmissible(Anthropic.FRESH, body, fam) && OneDelta(tail))
  }

  lemma EndsMore(body: seq<Event>, front: seq<Event>, ev: Event, fam: Anthropic.Family)
    requires Ends(body, front, fam) && IsTerminator(ev)
    ensures Ends(body, front + [ev], fam)
  {
    var tail, s := front + [ev], Grammar.EncodeAll(Anthropic.FRESH, body + front, fam).next;
    Associate(body, front, [ev]);
    OneDeltaMore(tail);
    assert tail[..|tail| - 1] == front;
    TerminatorConcludes(s, ev, fam);
    AdmissibleMore(body + front, ev, fam);
    Grammar.EncodedMore(Anthropic.FRESH, body + front, ev, fam);
  }

  lemma AdmissibleMore(evs: seq<Event>, ev: Event, fam: Anthropic.Family)
    ensures Grammar.AllAdmissible(Anthropic.FRESH, evs + [ev], fam) <==>
        && Grammar.AllAdmissible(Anthropic.FRESH, evs, fam)
        && Grammar.Admissible(Grammar.EncodeAll(Anthropic.FRESH, evs, fam).next, ev, fam)
  {
    Grammar.AdmissiblePrefix(Anthropic.FRESH, evs + [ev], fam);
    assert (evs + [ev])[..|evs + [ev]| - 1] == evs;
  }

  lemma {:induction false} TailEnds(body: seq<Event>, tail: seq<Event>, fam: Anthropic.Family)
    requires Body(body) && Tail(tail)
    ensures Ends(body, tail, fam)
  {
    if tail == [] {
      ConcatNothing(body);
      BodyIsMidway(body, fam);
    } else {
      FrontLast(tail);
      TailEnds(body, tail[..|tail| - 1], fam);
      EndsMore(body, tail[..|tail| - 1], tail[|tail| - 1], fam);
    }
  }

  lemma OneDeltaMore(tail: seq<Event>)
    requires tail != []
    ensures var front := tail[..|tail| - 1];
      OneDelta(tail) <==> OneDelta(front) && (front == [] || !tail[|front|].MessageDelta?)
  {
    var front := tail[..|tail| - 1];
    if OneDelta(front) && (front == [] || !tail[|front|].MessageDelta?) {
      forall k | 1 <= k < |tail| ensures !tail[k].MessageDelta? {
        if k < |front| { assert front[k] == tail[k]; }
      }
    }
  }

  lemma FinishedWhenOver(evs: seq<Event>, fam: Anthropic.Family)
    requires forall k :: 0 <= k < |evs| ==> !evs[k].StreamError?
    ensures Satisfied(Read(Grammar.Transcript(evs, fam))) <==> Grammar.AllAdmissible(Anthropic.FRESH, evs, fam)
  {
    Grammar.CompletedExactlyWhenAdmissible(evs, fam);
    var run := Grammar.EncodeAll(Anthropic.FRESH, evs, fam);
    if Grammar.AllAdmissible(Anthropic.FRESH, evs, fam) {
      Grammar.StreamFollows(evs, fam);
      Grammar.NeverErrored(evs, fam);
      Grammar.FollowConcat(Grammar.NEW_CLIENT, run.frames, Anthropic.Finish(run.next).frames);
      if !run.next.stopped {
        Grammar.StopFollows(run.next);
        Grammar.NoErrorByItself(run.next, MessageStop, fam);
      }
    }
  }

  lemma {:induction false} ProperIsErrorFree(evs: seq<Event>)
    ensures forall ev :: ev in Proper(evs) ==> !ev.StreamError?
  {
    if evs == [] {
    } else {
      ProperIsErrorFree(evs[1..]);
    }
  }

  lemma {:induction false} HeardIsErrorFree(inputs: seq<Input>)
    ensures forall ev :: ev in Heard(inputs) ==> !ev.StreamError?
  {
    if inputs == [] {
    } else {
      if inputs[0].Frame? { ProperIsErrorFree(inputs[0].events); }
      HeardIsErrorFree(inputs[1..]);
    }
  }

  lemma {:induction false} KeptAll(evs: seq<Event>, f: Event -> bool)
    requires forall ev :: ev in evs ==> f(ev)
    ensures Keep(evs, f) == evs
  {
    if evs == [] {
    } else {
      FrontLast(evs);
      KeptAll(evs[..|evs| - 1], f);
    }
  }

  /** The events before the end, and those that end the message. */
  lemma Parts(c: Client, heard: seq<Event>)
    requires HandsOver(c) && forall ev :: ev in heard ==> !ev.StreamError?
    ensures Body(Keep(heard, Shown(c))) && Tail(Ending(c, heard))
    ensures Keep(Ending(c, heard), c.env.encodes) == Ending(c, heard)
  {
    KeptPass(heard, Shown(c));
    KeptPass(heard, Terminators());
    KeptAll(Ending(c, heard), c.env.encodes);
    var shown, tail, kept := Keep(heard, Shown(c)), Ending(c, heard), Keep(heard, Terminators());
    forall k | 0 <= k < |shown| ensures !IsTerminator(shown[k]) && !shown[k].StreamError? {
      assert shown[k] in shown;
    }
    forall k | 0 <= k < |tail| ensures IsTerminator(tail[k]) {
      if k < |kept| { assert kept[k] in kept; }
    }
  }

  /** The events given to a client that got everything, as the encoder takes them. */
  lemma EverythingReads(w: Wire, c: Client, shown: seq<Event>, tail: seq<Event>, fam: Anthropic.Family)
    requires Complete(w, c, shown + tail) && Body(shown) && Tail(tail)
    ensures ReadsComplete(w, fam) <==> Grammar.AllAdmissible(Anthropic.FRESH, shown, fam) && OneDelta(tail)
  {
    ClosedReads(w.body, fam);
    TailEnds(shown, tail, fam);
    FinishedWhenOver(shown + tail, fam);
  }

  lemma SuccessGivesEverything(c: Client)
    requires HandsOver(c) && !Attempted(c).wire.left && Attempted(c).res.err.None?
    ensures var heard := Heard(c.env.attempts(c.attempt).inputs);
      var shown, tail := Keep(heard, Shown(c)), Ending(c, heard);
      Body(shown) && Tail(tail) && Complete(Attempted(c).wire, c, shown + tail)
  {
    AttemptIsFair(c);
    HeardIsErrorFree(c.env.attempts(c.attempt).inputs);
    Parts(c, Heard(c.env.attempts(c.attempt).inputs));
  }

  /** A streaming client that stayed reads a complete message exactly when the attempt
      succeeded, every event before the end was admissible, and the end holds one message
      delta at most, in front. */
  lemma CompleteExactlyWhen(c: Client, fam: Anthropic.Family)
    requires HandsOver(c) && !Attempted(c).wire.left
    ensures var heard := Heard(c.env.attempts(c.attempt).inputs);
      ReadsComplete(Attempted(c).wire, fam) <==>
        && Attempted(c).res.err.None?
        && Grammar.AllAdmissible(Anthropic.FRESH, Keep(heard, Shown(c)), fam)
        && OneDelta(Ending(c, heard))
  {
    var heard := Heard(c.env.attempts(c.attempt).inputs);
    if Attempted(c).res.err.Some? {
      FailureNeverLooksComplete(c, fam);
    } else {
      SuccessGivesEverything(c);
      EverythingReads(Attempted(c).wire, c, Keep(heard, Shown(c)), Ending(c, heard), fam);
    }
  }

  /** The stream of an attempt is one that a client can be given whole: it got under way, the
      upstream concluded it cleanly and within the limits, leaving nothing broken, and its
      events make a message. */
  ghost predicate GoesThrough(c: Client, fam: Anthropic.Family) {
    var a := c.env.attempts(c.attempt);
    var heard := Heard(a.inputs);
    && a.prepareError.None? && a.openError.None? && Clean(a.inputs) && Whole(c, heard)
    && Grammar.AllAdmissible(Anthropic.FRESH, Keep(heard, Shown(c)), fam) && OneDelta(Ending(c, heard))
  }

  /** For a client that stays to the end, the script alone decides. */
  lemma StayingReadsExactly(c: Client, fam: Anthropic.Family)
    requires HandsOver(c) && Reliable(c)
    ensures ReadsComplete(Attempted(c).wire, fam) <==> GoesThrough(c, fam)
  {
    SucceedsExactlyWhenComplete(c);
    if Attempted(c).res.err.Some? { FailureNeverLooksComplete(c, fam); } else { CompleteExactlyWhen(c, fam); }
  }

  /** The end holds a second message delta exactly when the upstream sent one, or when a
      truncated stream had a terminator of its own. */
  lemma WhenOneDelta(c: Client, heard: seq<Event>)
    ensures var own, cut := Keep(heard, Terminators()), Cut(AddAll(NEW_AGG, heard), c.env.proj);
      OneDelta(Ending(c, heard)) <==> OneDelta(own) && (own == [] || cut == [])
  {
    var own, cut := Keep(heard, Terminators()), Cut(AddAll(NEW_AGG, heard), c.env.proj);
    if cut == [] { ConcatNothing(own); } else { OneDeltaMore(own + cut); ConcatFront(own, cut); }
  }

  /** An answer that is not the body of an attempt holds no frame. */
  lemma ErrorBodyIsSilent(c: Client, fam: Anthropic.Family)
    ensures !ReadsComplete(Failed(BLANK, c), fam)
  {
    var body := Failed(BLANK, c).body;
    assert body == [] || body == [Written(c.attempt, ErrorBody)];
    assert body[..0] == [];
    assert Said(body, fam).frames == [];
  }

  /** A streaming client is given a complete message only by a request that succeeded, whatever
      went wrong and whenever.  And if it stays, by every one whose last attempt heard only
      admissible events with at most one message delta to end them. */
  lemma ServedComplete(q: Setup, fam: Anthropic.Family)
    requires HandsOver(ClientOf(q, 0))
    ensures var k := Needed(q, 0);
      var a, c, w := q.env.attempts(k - 1), ClientOf(q, k - 1), Answer(q, k);
      var heard, success := Heard(a.inputs), a.dispatchError.None? && Attempted(c).res.err.None?;
      && (ReadsComplete(w, fam) ==> success)
      && (!w.left ==>
            (ReadsComplete(w, fam) <==>
              success && Grammar.AllAdmissible(Anthropic.FRESH, Keep(heard, Shown(c)), fam) && OneDelta(Ending(c, heard))))
  {
    var k := Needed(q, 0);
    var c := ClientOf(q, k - 1);
    if Answer(q, k) == Attempted(c).wire && q.env.attempts(k - 1).dispatchError.None? {
      if Attempted(c).res.err.Some? { FailureNeverLooksComplete(c, fam); }
      if !Attempted(c).wire.left { CompleteExactlyWhen(c, fam); }
    } else {
      ErrorBodyIsSilent(c, fam);
    }
  }

  /** A streaming client that stays has a complete message exactly when the last attempt got a
      target and its stream goes through. */
  lemma ServedToStaying(q: Setup, fam: Anthropic.Family)
    requires HandsOver(ClientOf(q, 0)) && Reliable(ClientOf(q, 0))
    ensures var k := Needed(q, 0);
      ReadsComplete(Answer(q, k), fam)
      <==> q.env.attempts(k - 1).dispatchError.None? && GoesThrough(ClientOf(q, k - 1), fam)
  {
    var k := Needed(q, 0);
    var c := ClientOf(q, k - 1);
    StayingReadsExactly(c, fam);
    ServedComplete(q, fam);
    if q.env.attempts(k - 1).dispatchError.None? && GoesThrough(c, fam) { SucceedsExactlyWhenComplete(c); }
  }

  // ----- from Gemini, all the way -----

  lemma {:induction false} NoEndWhileStreaming(evs: seq<Event>)
    requires var at := GeminiGrammar.Follow(Some(GeminiGrammar.NEW_BRACKET), evs);
      at.Some? && (at.value.phase == GeminiGrammar.Before || at.value.phase == GeminiGrammar.Streaming)
    ensures forall k :: 0 <= k < |evs| ==> !IsTerminator(evs[k])
  {
    if evs == [] {
    } else {
      NoEndWhileStreaming(evs[..|evs| - 1]);
    }
  }

  /** What the decoder says before the two terminators, and the first of those. */
  function GeminiBody(fs: seq<Gemini.WireFrame>, synth: Gemini.SynthId): seq<Event> {
    var out := Gemini.FeedAll(Gemini.FRESH, fs, synth);
    out.events + Gemini.CloseCurrent(out.next).events
  }

  function GeminiEnd(fs: seq<Gemini.WireFrame>, synth: Gemini.SynthId): Event {
    var d := Gemini.FeedAll(Gemini.FRESH, fs, synth).next;
    MessageDelta(Gemini.FinalReason(d), "", None, NO_RECEIPTS.(serviceTier := d.tier), d.usage)
  }

  predicate Answers(fs: seq<Gemini.WireFrame>) { exists k :: 0 <= k < |fs| && fs[k].ResponseFrame? }

  lemma GeminiParts(fs: seq<Gemini.WireFrame>, synth: Gemini.SynthId)
    requires Answers(fs)
    ensures GeminiGrammar.WholeStream(fs, synth) == GeminiBody(fs, synth) + [GeminiEnd(fs, synth), MessageStop]
    ensures forall ev :: ev in GeminiBody(fs, synth) ==> !IsTerminator(ev)
  {
    var out := Gemini.FeedAll(Gemini.FRESH, fs, synth);
    var closing := Gemini.CloseCurrent(out.next).events;
    GeminiGrammar.FramesLead(fs, synth);
    var texts := GeminiGrammar.TextsAfter({}, out.events);
    GeminiGrammar.CloseLeads(out.next, texts);
    assert GeminiGrammar.Seen(Gemini.FRESH, {}) == GeminiGrammar.NEW_BRACKET;
    GeminiGrammar.FollowConcat(Some(GeminiGrammar.NEW_BRACKET), out.events, closing);
    NoEndWhileStreaming(GeminiBody(fs, synth));
    Associate(out.events, closing, [GeminiEnd(fs, synth), MessageStop]);
    assert Gemini.Finish(out.next).events == closing + [GeminiEnd(fs, synth), MessageStop];
  }

  lemma {:induction false} KeptNone(evs: seq<Event>, f: Event -> bool)
    requires forall ev :: ev in evs ==> !f(ev)
    ensures Keep(evs, f) == []
  {
    if evs == [] {
    } else {
      KeptNone(evs[..|evs| - 1], f);
    }
  }

  /** A message delta that gives a reason rules the extra one out. */
  lemma ReasonRulesOutCut(body: seq<Event>, end: Event, proj: Projection)
    requires end.MessageDelta? && end.stopReason != StopUnset
    ensures Cut(AddAll(NEW_AGG, body + [end, MessageStop]), proj) == []
  {
    var mid := AddAll(NEW_AGG, body);
    AddAllConcat(NEW_AGG, body, [end, MessageStop]);
    AddAllConcat(mid, [end], [MessageStop]);
    assert [end] + [MessageStop] == [end, MessageStop];
    AddOne(mid, end);
    AddOne(Add(mid, end), MessageStop);
  }

  /** A stream that ends in two terminators of its own. */
  lemma EndedInTwo(c: Client, body: seq<Event>, end: Event)
    requires HandsOver(c) && end.MessageDelta? && forall ev :: ev in body ==> !IsTerminator(ev)
    requires Cut(AddAll(NEW_AGG, body + [end, MessageStop]), c.env.proj) == []
    ensures var heard := body + [end, MessageStop];
      Keep(heard, Shown(c)) == body && Ending(c, heard) == [end, MessageStop]
  {
    var ends := [end, MessageStop];
    KeepConcat(body, ends, Shown(c));
    KeepConcat(body, ends, Terminators());
    KeptAll(body, Shown(c));
    KeptNone(body, Terminators());
    KeptNone(ends, Shown(c));
    KeptAll(ends, Terminators());
    ConcatNothing(body);
    ConcatNothing(ends);
  }

  lemma GeminiEndsWell(c: Client, fs: seq<Gemini.WireFrame>, synth: Gemini.SynthId, fam: Anthropic.Family)
    requires HandsOver(c) && Answers(fs)
    ensures var heard := GeminiGrammar.WholeStream(fs, synth);
      Grammar.AllAdmissible(Anthropic.FRESH, Keep(heard, Shown(c)), fam) && OneDelta(Ending(c, heard))
  {
    var body, ends := GeminiBody(fs, synth), [GeminiEnd(fs, synth), MessageStop];
    GeminiParts(fs, synth);
    ReasonRulesOutCut(body, GeminiEnd(fs, synth), c.env.proj);
    EndedInTwo(c, body, GeminiEnd(fs, synth));
    GeminiGrammar.StreamsAreBracketed(fs, synth);
    GeminiGrammar.PrefixBracketed(body + ends, |body|);
    assert (body + ends)[..|body|] == body;
    GeminiGrammar.BracketedStreamsAdmissible(body, fam);
  }

  /** With a Gemini upstream, a streaming client that stays reads a complete message exactly
      when the request succeeded: its last attempt got a target, and the upstream concluded
      cleanly, within the limits, and left nothing broken. */
  lemma GeminiServed(q: Setup, fs: seq<Gemini.WireFrame>, synth: Gemini.SynthId, fam: Anthropic.Family)
    requires HandsOver(ClientOf(q, 0)) && Answers(fs)
    requires Heard(q.env.attempts(Needed(q, 0) - 1).inputs) == GeminiGrammar.WholeStream(fs, synth)
    ensures var k := Needed(q, 0);
      var a, c := q.env.attempts(k - 1), ClientOf(q, k - 1);
      && (!Answer(q, k).left ==>
            (ReadsComplete(Answer(q, k), fam) <==> a.dispatchError.None? && Attempted(c).res.err.None?))
      && (Reliable(c) ==>
            (ReadsComplete(Answer(q, k), fam) <==>
              && a.dispatchError.None? && a.prepareError.None? && a.openError.None?
              && Clean(a.inputs) && Whole(c, GeminiGrammar.WholeStream(fs, synth))))
  {
    var c := ClientOf(q, Needed(q, 0) - 1);
    GeminiEndsWell(c, fs, synth, fam);
    ServedComplete(q, fam);
    if Reliable(c) { ServedToStaying(q, fam); }
  }

  // ----- a whole response, replayed -----

  lemma BodyHasNoEnd(body: seq<Event>)
    requires Body(body)
    ensures forall ev :: ev in body ==> !IsTerminator(ev)
  {}

  lemma ReplayParts(c: Client, r: Response, fam: Anthropic.Family)
    requires HandsOver(c) && WithinGates(r.content)
    ensures var heard := ResponseEvents(r);
      Grammar.AllAdmissible(Anthropic.FRESH, Keep(heard, Shown(c)), fam) && OneDelta(Ending(c, heard))
      <==> ReplayStream.NoneStranded(r.content, fam)
  {
    var body, ends := [StartEvent(r)] + ContentEvents(r.content), [EndEvent(r), MessageStop];
    ReplayedBody(r);
    ReplayIsClosed(r, c.env.proj);
    BodyHasNoEnd(body);
    EndedInTwo(c, body, EndEvent(r));
    ReplayStream.ReplayStreamsCompletely(r, fam);
    AdmittedWhole(body, ends, fam);
  }

  lemma AdmittedWhole(body: seq<Event>, ends: seq<Event>, fam: Anthropic.Family)
    requires Body(body) && Tail(ends) && OneDelta(ends)
    ensures Grammar.Over(Grammar.Follow(Grammar.NEW_CLIENT, Grammar.Transcript(body + ends, fam)))
       <==> Grammar.AllAdmissible(Anthropic.FRESH, body, fam)
  {
    Grammar.CompletedExactlyWhenAdmissible(body + ends, fam);
    TailEnds(body, ends, fam);
  }

  lemma ReplayedBody(r: Response)
    ensures Body([StartEvent(r)] + ContentEvents(r.content))
  {
    ContentIsBody(r.content);
    BodyConcat([StartEvent(r)], ContentEvents(r.content));
  }

  lemma {:induction false} ContentIsBody(content: seq<Block>)
    ensures Body(ContentEvents(content))
  {
    if content == [] {
    } else {
      var n := |content| - 1;
      ContentIsBody(content[..n]);
      BlockIsBody(n, content[n]);
      BodyConcat(ContentEvents(content[..n]), BlockEvents(n, content[n]));
    }
  }

  lemma BlockIsBody(i: int, b: Block)
    ensures Body(BlockEvents(i, b))
  {
    assert Body(Deltas(i, b));
    BodyConcat([BlockStart(i, Some(Skeleton(b)))], Deltas(i, b));
    BodyConcat([BlockStart(i, Some(Skeleton(b)))] + Deltas(i, b), [BlockStop(i)]);
  }

  lemma BodyConcat(x: seq<Event>, y: seq<Event>)
    requires Body(x) && Body(y)
    ensures Body(x + y)
  {}

  /** Every block of a replayed response was stopped, so nothing is added. */
  lemma ReplayIsClosed(r: Response, proj: Projection)
    requires WithinGates(r.content)
    ensures Cut(AddAll(NEW_AGG, ResponseEvents(r)), proj) == []
  {
    var a := AddAll(NEW_AGG, ResponseEvents(r));
    ReplayHolds(r);
    forall i | i in a.order ensures i in a.closed {
      assert 0 <= i < |r.content| && HeldAt(a, i, r.content[i]);
    }
  }

  /** An upstream that answers with a whole response: a streaming client that stays reads a
      complete message exactly when the response is within the limits, every call's arguments
      parse, and no redacted reasoning has lost its ciphertext while text or a usable
      signature is left of it. */
  lemma ReplayServed(q: Setup, r: Response, fam: Anthropic.Family)
    requires HandsOver(ClientOf(q, 0)) && Reliable(ClientOf(q, 0))
    requires q.env.attempts(Needed(q, 0) - 1).inputs == [Frame(ResponseEvents(r), true)]
    ensures var k := Needed(q, 0);
      var a := q.env.attempts(k - 1);
      ReadsComplete(Answer(q, k), fam) <==>
        && a.dispatchError.None? && a.prepareError.None? && a.openError.None?
        && WithinGates(r.content) && NoneMalformed(r.content, q.env.proj, q.env.valid)
        && ReplayStream.NoneStranded(r.content, fam)
  {
    var c := ClientOf(q, Needed(q, 0) - 1);
    ServedToStaying(q, fam);
    ReplayIsHeard(r);
    ReplayFits(r);
    if WithinGates(r.content) {
      ReplayIsUnsafeOnlyWhenMalformed(r, c.env.proj, c.env.valid);
      ReplayParts(c, r, fam);
    }
  }

  lemma ReplayIsHeard(r: Response)
    ensures var inputs := [Frame(ResponseEvents(r), true)];
      Heard(inputs) == ResponseEvents(r) && Clean(inputs)
  {
    var evs := ResponseEvents(r);
    ReplayedBody(r);
    forall k | 0 <= k < |evs| ensures !evs[k].StreamError? {
      var body := [StartEvent(r)] + ContentEvents(r.content);
      if k < |body| { assert evs[k] == body[k]; }
    }
    ErrorFreeIsProper(evs);
    ConcatNothing(evs);
  }

  lemma {:induction false} ErrorFreeIsProper(evs: seq<Event>)
    requires forall k :: 0 <= k < |evs| ==> !evs[k].StreamError?
    ensures Proper(evs) == evs
  {
    if evs == [] {
    } else {
      HeadTail(evs, 0);
      ErrorFreeIsProper(evs[1..]);
    }
  }

  // ----- broken off -----

  /** A block is under way. */
  predicate HasOpen(a: Agg) { exists i :: i in a.order && i !in a.closed }

  /** Nothing but message deltas gives a reason to stop. */
  lemma {:induction false} NoReasonGiven(evs: seq<Event>)
    requires Body(evs)
    ensures AddAll(NEW_AGG, evs).resp.stopReason == StopUnset
  {
    if evs == [] {
    } else {
      NoReasonGiven(evs[..|evs| - 1]);
    }
  }

  lemma StopAddsNothing(body: seq<Event>)
    ensures AddAll(NEW_AGG, body + [MessageStop]) == AddAll(NEW_AGG, body)
  {
    AddAllConcat(NEW_AGG, body, [MessageStop]);
    AddOne(AddAll(NEW_AGG, body), MessageStop);
  }

  lemma BrokenOffParts(c: Client, body: seq<Event>)
    requires HandsOver(c) && Body(body)
    ensures var heard := body + [MessageStop];
      && Keep(heard, Shown(c)) == body && Keep(heard, Terminators()) == [MessageStop]
  {
    KeepConcat(body, [MessageStop], Shown(c));
    KeepConcat(body, [MessageStop], Terminators());
    KeepOne(MessageStop, Shown(c));
    KeepOne(MessageStop, Terminators());
    KeptAll(body, Shown(c));
    KeptNone(body, Terminators());
    ConcatNothing(body);
    ConcatNothing([MessageStop]);
  }

  /** The decoder of an upstream that breaks off adds `message_stop` and nothing else.  The
      client then has a complete message exactly when the events before it were admissible
      and no block was under way, or a tool call gave the message its reason to stop.
      Otherwise the bridge adds a message delta, behind `message_stop`. */
  lemma BrokenOff(c: Client, body: seq<Event>, fam: Anthropic.Family)
    requires HandsOver(c) && Reliable(c) && Body(body)
    requires var a := c.env.attempts(c.attempt);
      && a.prepareError.None? && a.openError.None? && Clean(a.inputs)
      && Heard(a.inputs) == body + [MessageStop] && Whole(c, Heard(a.inputs))
    ensures var agg := AddAll(NEW_AGG, body);
      && Attempted(c).res.err.None?
      && (ReadsComplete(Attempted(c).wire, fam) <==>
            && Grammar.AllAdmissible(Anthropic.FRESH, body, fam)
            && (HasOpen(agg) ==> HasToolUse(ResponseOf(agg, c.env.proj).content)))
  {
    SucceedsExactlyWhenComplete(c);
    CompleteExactlyWhen(c, fam);
    BrokenOffParts(c, body);
    WhenOneDelta(c, body + [MessageStop]);
    StopAddsNothing(body);
    NoReasonGiven(body);
  }

  // ----- a stream that is broken off in the middle of a text -----

  const OPENED := BlockStart(0, Some(EmptyBlock(BlockText)))
  const SAID := TextDelta(0, "a")

  /** One text block under way. */
  ghost predicate OneOpenText(a: Agg) {
    && a.order == [0] && a.closed == {} && a.sawInput == {} && a.ledger.overflow == Fits && a.ledger.bytes <= 1
    && 0 in a.blocks && a.blocks[0].kind == BlockText && a.blocks[0].toolUse.None?
  }

  lemma OpenedIsOpen(a: Agg, ev: Event)
    requires a == NEW_AGG && ev == OPENED
    ensures OneOpenText(Add(a, ev)) && Add(a, ev).ledger.bytes == 0
  {
    var b := StartedBlock(ev.block);
    assert SeedAcc(b).Size() == 0;
    assert Add(a, ev) == AddStart(a, 0, b);
    assert a.order + [0] == [0];
  }

  lemma SaidLeavesOpen(a: Agg)
    requires OneOpenText(a) && a.ledger.bytes == 0
    ensures OneOpenText(Add(a, SAID))
  {}

  lemma OneOpenTextIsSafe(a: Agg, proj: Projection, valid: string -> bool)
    requires OneOpenText(a)
    ensures UnsafeBlocks(a, proj, valid) == [] && HasOpen(a) && !HasToolUse(ResponseOf(a, proj).content)
  {
    var m := Materialize(a, proj);
    assert m.blocks[0].kind == BlockText && m.blocks[0].toolUse.None?;
    assert a.order[..0] == [] && a.order[0] == 0;
    assert Truncated(m, a.order[..0], valid) == [] && Unsigned(m, a.order[..0]) == [];
    assert !(0 in a.sawInput) && !IsUnsigned(m.blocks[0]);
    assert Truncated(m, a.order, valid) == [];
    assert Unsigned(m, a.order) == [];
    assert Collect(m.blocks, a.order) == [m.blocks[0]];
    assert 0 in a.order;
  }

  lemma ShortCollected()
    ensures OneOpenText(AddAll(NEW_AGG, [OPENED, SAID]))
  {
    var a := Add(NEW_AGG, OPENED);
    AddAllConcat(NEW_AGG, [OPENED], [SAID]);
    assert [OPENED] + [SAID] == [OPENED, SAID];
    AddOne(NEW_AGG, OPENED);
    AddOne(a, SAID);
    OpenedIsOpen(NEW_AGG, OPENED);
    SaidLeavesOpen(a);
  }

  /** A block start, a piece of text, and then what the decoder adds when nothing more comes. */
  const SHORT := [Frame([OPENED], false), Frame([SAID], false), Frame([MessageStop], true)]

  lemma ShortIsHeard()
    ensures Heard(SHORT) == [OPENED, SAID] + [MessageStop] && Clean(SHORT)
  {
    var rest, last := SHORT[1..], SHORT[2..];
    assert rest[1..] == last && rest[0] == Frame([SAID], false) && last[0] == Frame([MessageStop], true);
    ProperOne(OPENED);
    ProperOne(SAID);
    ProperOne(MessageStop);
    assert Heard(last) == [MessageStop];
    assert Heard(rest) == [SAID] + [MessageStop];
    assert Concludes(last) && Concludes(rest) && !Complains(last) && !Complains(rest);
  }

  lemma ProperOne(ev: Event)
    requires !ev.StreamError?
    ensures Proper([ev]) == [ev] && !HasError([ev])
  {
    assert Proper([ev][1..]) == [];
  }

  /** The attempt succeeds, and what the client is given is no complete message. */
  lemma SecondDelta(c: Client, fam: Anthropic.Family)
    requires HandsOver(c) && Reliable(c)
    requires var a := c.env.attempts(c.attempt); a.prepareError.None? && a.openError.None? && a.inputs == SHORT
    ensures Attempted(c).res.err.None? && !ReadsComplete(Attempted(c).wire, fam)
  {
    var body := [OPENED, SAID];
    ShortIsHeard();
    ShortCollected();
    StopAddsNothing(body);
    OneOpenTextIsSafe(AddAll(NEW_AGG, body), c.env.proj, c.env.valid);
    BrokenOff(c, body, fam);
  }
}
