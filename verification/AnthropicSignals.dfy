/** How an Anthropic client sees a message open and end, told from the events:
    backend/codec/anthropic/encode_stream.go and decode_stream.go. */
module AnthropicSignals {
  import opened Ir
  import opened Seqs
  import opened AnthropicStream
  import opened AnthropicGrammar
  import opened AnthropicWords

  // ----- frames of a sort -----

  datatype Sort = Openings | Blocks | Stops | Closings | Citations

  function SortOf(f: Frame): Option<Sort> {
    match f
    case FMessageStart(_, _) => Some(Openings)
    case FBlockStart(_, _) => Some(Blocks)
    case FBlockStop(_) => Some(Stops)
    case FDelta(_, kind, _) => if kind == DeltaCitation then Some(Citations) else None
    case _ => Some(Closings)
  }

  /** The frames of one sort, in order. */
  function Shown(fs: seq<Frame>, sort: Sort): seq<Frame> {
    if fs == [] then []
    else
      var front, f := Shown(fs[..|fs| - 1], sort), fs[|fs| - 1];
      if SortOf(f) == Some(sort) then front + [f] else front
  }

  lemma {:induction false} ShownConcat(a: seq<Frame>, b: seq<Frame>, sort: Sort)
    ensures Shown(a + b, sort) == Shown(a, sort) + Shown(b, sort)
  {
    if b == [] {
      ConcatNothing(a);
      ConcatNothing(Shown(a, sort));
    } else {
      ConcatFront(a, b);
      ShownConcat(a, b[..|b| - 1], sort);
    }
  }

  lemma {:induction false} NoneShown(fs: seq<Frame>, sort: Sort)
    requires forall f :: f in fs ==> SortOf(f) != Some(sort)
    ensures Shown(fs, sort) == []
  {
    if fs == [] {
    } else {
      NoneShown(fs[..|fs| - 1], sort);
    }
  }

  lemma {:induction false} AllShown(fs: seq<Frame>, sort: Sort)
    requires forall f :: f in fs ==> SortOf(f) == Some(sort)
    ensures Shown(fs, sort) == fs
  {
    if fs == [] {
    } else {
      AllShown(fs[..|fs| - 1], sort);
      FrontLast(fs);
    }
  }

  lemma ClosingIsQuiet(s: State, order: seq<int>, sort: Sort)
    requires sort != Stops
    ensures Shown(CloseEach(s, order).frames, sort) == []
  {
    CloseEachIsWordless(s, order);
    NoneShown(CloseEach(s, order).frames, sort);
  }

  // ----- how the message opens -----

  /** The event makes the encoder open the message, if nothing has done so yet. */
  predicate Wakes(ev: Event, fam: Family) {
    match ev
    case SigDelta(_, text, from) => !(text != "" && (from != "anthropic" || fam.foreignPrefix(text)))
    case CitationDelta(_, _) => false
    case BlockStop(_) => false
    case Ping => false
    case StreamError(_) => false
    case _ => true
  }

  /** The first event that opens the message. */
  function Opener(evs: seq<Event>, fam: Family): Option<Event> {
    if evs == [] then None
    else
      var front, ev := evs[..|evs| - 1], evs[|evs| - 1];
      if Opener(front, fam).Some? then Opener(front, fam)
      else if !HadError(front) && Wakes(ev, fam) then Some(ev) else None
  }

  /** How the message opens.  A block that cannot be written takes the opening with it. */
  function OpeningFor(ev: Event, fam: Family): seq<Frame> {
    match ev
    case MessageStart(id, model, _, _, _, _, _) => [FMessageStart(if id != "" then id else "msg_unknown", model)]
    case BlockStart(_, block) => if OpeningOf(block, fam) == Refused then [] else [FMessageStart("msg_unknown", "")]
    case ToolInput(_, _) => []
    case _ => [FMessageStart("msg_unknown", "")]
  }

  /** Nothing is open, and nothing has stopped, before the message opens. */
  predicate Asleep(s: State) { !s.started ==> s.open == {} && !s.stopped }

  lemma {:induction false} CloseEachStaysAsleep(s: State, order: seq<int>)
    ensures CloseEach(s, order).next.open <= s.open
    decreases order
  {
    if order == [] {
    } else if order[0] in s.open {
      CloseEachStaysAsleep(Close(s, order[0]).next, order[1..]);
    } else {
      CloseEachStaysAsleep(s, order[1..]);
    }
  }

  lemma StepWakes(s: State, ev: Event, fam: Family)
    requires Asleep(s)
    ensures Asleep(Encode(s, ev, fam).next)
    ensures Encode(s, ev, fam).next.started == (s.started || (!s.errored && Wakes(ev, fam)))
  {
    CloseEachErrs(s, s.order);
    CloseEachErrs(s.(started := true), s.order);
    CloseEachStaysAsleep(s, s.order);
  }

  lemma OnlyFirstShown(a: seq<Frame>, b: seq<Frame>, sort: Sort)
    requires forall f :: f in a ==> SortOf(f) == Some(sort)
    requires forall f :: f in b ==> SortOf(f) != Some(sort)
    ensures Shown(a + b, sort) == a
  {
    ShownConcat(a, b, sort);
    AllShown(a, sort);
    NoneShown(b, sort);
    ConcatNothing(a);
  }

  lemma StartShows(s: State, id: string, model: string, rest: seq<Frame>)
    requires forall f :: f in rest ==> !f.FMessageStart?
    ensures Shown(Start(s, id, model).frames + rest, Openings) == Start(s, id, model).frames
  {
    OnlyFirstShown(Start(s, id, model).frames, rest, Openings);
  }

  lemma DeltaOpensMessage(s: State, i: int, kind: DeltaKind, text: string, blank: BlockKind, fam: Family)
    requires Asleep(s) && (blank == BlockText || blank == BlockThinking || blank == BlockToolUse)
    ensures Shown(Delta(s, i, kind, text, blank, fam).frames, Openings)
         == if s.started || blank == BlockToolUse then [] else [FMessageStart("msg_unknown", "")]
  {
    var f := FDelta(i, kind, text);
    if i in s.open {
      NoneShown([f], Openings);
    } else if blank == BlockText {
      StartShows(s, "", "", [FBlockStart(i, "text"), f]);
      assert Delta(s, i, kind, text, blank, fam).frames
          == Start(s, "", "").frames + [FBlockStart(i, "text"), f];
    } else if blank == BlockThinking {
      StartShows(s, "", "", [f]);
    }
  }

  lemma BlockOpensMessage(s: State, i: int, block: Option<Block>, fam: Family)
    ensures Shown(StartBlock(s, i, block, fam).frames, Openings)
         == if s.started || OpeningOf(block, fam) == Refused then [] else [FMessageStart("msg_unknown", "")]
  {
    match OpeningOf(block, fam)
    case Refused =>
    case Skipped =>
      StartShows(s, "", "", []);
      ConcatNothing(Start(s, "", "").frames);
    case Opened(wireType) => StartShows(s, "", "", [FBlockStart(i, wireType)]);
  }

  lemma EndOpensMessage(s: State, rest: seq<Frame>)
    requires forall f :: f in rest ==> !f.FMessageStart?
    ensures var begun := Start(s, "", "");
      Shown(begun.frames + CloseAll(begun.next).frames + rest, Openings) == begun.frames
  {
    var begun := Start(s, "", "");
    CloseEachIsWordless(begun.next, begun.next.order);
    StartShows(s, "", "", CloseAll(begun.next).frames + rest);
    Associate(begun.frames, CloseAll(begun.next).frames, rest);
  }

  lemma StopOpensMessage(s: State)
    requires Asleep(s)
    ensures Shown(Stop(s).frames, Openings) == if s.started then [] else [FMessageStart("msg_unknown", "")]
  {
    if !s.stopped {
      var delta := if s.sentDelta then [] else [MessageDeltaFrame(StopEndTurn, "")];
      EndOpensMessage(s, delta + [FMessageStop]);
      Associate(Start(s, "", "").frames + CloseAll(Start(s, "", "").next).frames, delta, [FMessageStop]);
    }
  }

  lemma ErrorOpensNothing(s: State, message: string)
    ensures Shown(CloseAll(s).frames + [FError(message)], Openings) == []
  {
    ClosingIsQuiet(s, s.order, Openings);
    ShownConcat(CloseAll(s).frames, [FError(message)], Openings);
    NoneShown([FError(message)], Openings);
  }

  lemma PlainOpensNothing(s: State, ev: Event, fam: Family)
    requires !s.errored && (ev.CitationDelta? || ev.BlockStop? || ev.Ping?)
    ensures Shown(Encode(s, ev, fam).frames, Openings) == []
  {
    if ev.CitationDelta? { CitationsAreWordless(ev.index, TextSoFar(s, ev.index), ev.citations); }
    NoneShown(Encode(s, ev, fam).frames, Openings);
  }

  lemma StartOpensMessage(s: State, id: string, model: string)
    ensures Shown(Start(s, id, model).frames, Openings) == Start(s, id, model).frames
  {
    StartShows(s, id, model, []);
    ConcatNothing(Start(s, id, model).frames);
  }

  lemma DeltaStepOpensMessage(s: State, ev: Event, fam: Family)
    requires Asleep(s) && !s.errored && (ev.TextDelta? || ev.ThinkingDelta? || ev.SigDelta? || ev.ToolInput?)
    ensures Shown(Encode(s, ev, fam).frames, Openings)
         == if !s.started && Wakes(ev, fam) then OpeningFor(ev, fam) else []
  {
    match ev
    case TextDelta(i, text) =>
      DeltaOpensMessage(s.(text := s.text[i := TextSoFar(s, i) + text]), i, DeltaText, text, BlockText, fam);
    case ThinkingDelta(i, text) => DeltaOpensMessage(s, i, DeltaThinking, text, BlockThinking, fam);
    case SigDelta(i, text, from) =>
      if !ForeignSignature(text, from, fam) { DeltaOpensMessage(s, i, DeltaSignature, text, BlockThinking, fam); }
    case ToolInput(i, text) => DeltaOpensMessage(s, i, DeltaInputJson, text, BlockToolUse, fam);
  }

  lemma StepOpensMessage(s: State, ev: Event, fam: Family)
    requires Asleep(s) && !s.errored
    ensures Shown(Encode(s, ev, fam).frames, Openings)
         == if !s.started && Wakes(ev, fam) then OpeningFor(ev, fam) else []
  {
    match ev
    case MessageStart(id, model, _, _, _, _, _) => StartOpensMessage(s, id, model);
    case BlockStart(i, block) => BlockOpensMessage(s, i, block, fam);
    case MessageDelta(reason, sequence, _, _, _) => EndOpensMessage(s, [MessageDeltaFrame(reason, sequence)]);
    case MessageStop => StopOpensMessage(s);
    case StreamError(message) => ErrorOpensNothing(s, message);
    case CitationDelta(_, _) => PlainOpensNothing(s, ev, fam);
    case BlockStop(_) => PlainOpensNothing(s, ev, fam);
    case Ping => PlainOpensNothing(s, ev, fam);
    case _ => DeltaStepOpensMessage(s, ev, fam);
  }

  lemma {:induction false} RunOpensMessage(evs: seq<Event>, fam: Family)
    ensures var run, opener := EncodeAll(FRESH, evs, fam), Opener(evs, fam);
      && Asleep(run.next) && run.next.started == opener.Some?
      && Shown(run.frames, Openings) == if opener.Some? then OpeningFor(opener.value, fam) else []
  {
    if evs == [] {
    } else {
      var front, ev := evs[..|evs| - 1], evs[|evs| - 1];
      var before := EncodeAll(FRESH, front, fam);
      RunOpensMessage(front, fam);
      RunErrs(front, fam);
      StepWakes(before.next, ev, fam);
      ShownConcat(before.frames, Encode(before.next, ev, fam).frames, Openings);
      if !before.next.errored { StepOpensMessage(before.next, ev, fam); }
    }
  }

  /** The message opens once, by the first event that calls for it: with the id and the model of
      the upstream exactly when that is its own opening, under a stand-in otherwise, and not at
      all when that event is a block or an input that cannot be written. */
  lemma MessageOpensOnce(evs: seq<Event>, fam: Family)
    ensures Shown(Transcript(evs, fam), Openings)
         == match Opener(evs, fam)
            case Some(ev) => OpeningFor(ev, fam)
            case None => if HadError(evs) then [] else [FMessageStart("msg_unknown", "")]
  {
    var run := EncodeAll(FRESH, evs, fam);
    RunOpensMessage(evs, fam);
    RunErrs(evs, fam);
    ShownConcat(run.frames, Finish(run.next).frames, Openings);
    if !run.next.stopped && !run.next.errored {
      StepOpensMessage(run.next, MessageStop, Family(_ => false, _ => None));
    }
    ConcatNothing(Shown(run.frames, Openings));
  }

  // ----- how it ends -----

  predicate Ended(evs: seq<Event>) { exists k :: 0 <= k < |evs| && evs[k].MessageStop? && !HadError(evs[..k]) }

  predicate Concluded(evs: seq<Event>) { exists k :: 0 <= k < |evs| && evs[k].MessageDelta? && !HadError(evs[..k]) }

  lemma EndedMore(evs: seq<Event>, ev: Event)
    ensures Ended(evs + [ev]) <==> Ended(evs) || (ev.MessageStop? && !HadError(evs))
    ensures Concluded(evs + [ev]) <==> Concluded(evs) || (ev.MessageDelta? && !HadError(evs))
  {
    var more := evs + [ev];
    assert more[|evs|] == ev && more[..|evs|] == evs;
    assert forall k :: 0 <= k < |evs| ==> more[k] == evs[k] && more[..k] == evs[..k];
  }

  /** What is told of the end, of pings and of errors when `ev` arrives after `front`. */
  function ClosingFor(front: seq<Event>, ev: Event): seq<Frame> {
    match ev
    case MessageDelta(reason, sequence, _, _, _) =>
      [FMessageDelta(RenderStopReason(reason), if reason == StopSequenceHit then sequence else "")]
    case MessageStop =>
      if Ended(front) then []
      else (if Concluded(front) then [] else [FMessageDelta("end_turn", "")]) + [FMessageStop]
    case Ping => [FPing]
    case StreamError(message) => [FError(message)]
    case _ => []
  }

  function ClosingsHeard(evs: seq<Event>): seq<Frame> {
    if evs == [] then []
    else
      var front := evs[..|evs| - 1];
      ClosingsHeard(front) + if HadError(front) then [] else ClosingFor(front, evs[|evs| - 1])
  }

  lemma QuietThenCloses(quiet: seq<Frame>, rest: seq<Frame>)
    requires forall f :: f in quiet ==> SortOf(f) != Some(Closings)
    requires forall f :: f in rest ==> SortOf(f) == Some(Closings)
    ensures Shown(quiet + rest, Closings) == rest
  {
    ShownConcat(quiet, rest, Closings);
    NoneShown(quiet, Closings);
    AllShown(rest, Closings);
    ConcatNothing(rest);
  }

  lemma DeltaClosesNothing(s: State, i: int, kind: DeltaKind, text: string, blank: BlockKind, fam: Family)
    ensures forall f :: f in Delta(s, i, kind, text, blank, fam).frames ==> SortOf(f) != Some(Closings)
  {}

  lemma BlockClosesNothing(s: State, i: int, block: Option<Block>, fam: Family)
    ensures forall f :: f in StartBlock(s, i, block, fam).frames ==> SortOf(f) != Some(Closings)
  {}

  lemma MiddleClosesNothing(s: State, ev: Event, fam: Family)
    requires !s.errored
    requires !ev.MessageDelta? && !ev.MessageStop? && !ev.Ping? && !ev.StreamError?
    ensures forall f :: f in Encode(s, ev, fam).frames ==> SortOf(f) != Some(Closings)
  {
    match ev
    case BlockStart(i, block) => BlockClosesNothing(s, i, block, fam);
    case TextDelta(i, text) =>
      DeltaClosesNothing(s.(text := s.text[i := TextSoFar(s, i) + text]), i, DeltaText, text, BlockText, fam);
    case ThinkingDelta(i, text) => DeltaClosesNothing(s, i, DeltaThinking, text, BlockThinking, fam);
    case SigDelta(i, text, _) => DeltaClosesNothing(s, i, DeltaSignature, text, BlockThinking, fam);
    case ToolInput(i, text) => DeltaClosesNothing(s, i, DeltaInputJson, text, BlockToolUse, fam);
    case CitationDelta(i, cs) => CitationsAreWordless(i, TextSoFar(s, i), cs);
    case _ =>
  }

  lemma StepCloses(s: State, ev: Event, fam: Family, front: seq<Event>)
    requires !s.errored && s.stopped == Ended(front) && s.sentDelta == (Concluded(front) || Ended(front))
    ensures Shown(Encode(s, ev, fam).frames, Closings) == ClosingFor(front, ev)
    ensures var next := Encode(s, ev, fam).next;
      next.stopped == (s.stopped || ev.MessageStop?) && next.sentDelta == (s.sentDelta || ev.MessageDelta? || ev.MessageStop?)
  {
    StepMarks(s, ev, fam);
    match ev
    case MessageDelta(reason, sequence, _, _, _) =>
      CloseEachIsWordless(s.(started := true), s.order);
      QuietThenCloses(Start(s, "", "").frames + CloseAll(Start(s, "", "").next).frames,
                      [MessageDeltaFrame(reason, sequence)]);
    case MessageStop => StopCloses(s);
    case Ping => AllShown([FPing], Closings);
    case StreamError(message) =>
      CloseEachIsWordless(s, s.order);
      QuietThenCloses(CloseAll(s).frames, [FError(message)]);
    case _ => MiddleClosesNothing(s, ev, fam); NoneShown(Encode(s, ev, fam).frames, Closings);
  }

  /** Neither ended nor concluded by this. */
  predicate Unmarked(was: State, now: State) {
    now.stopped == was.stopped && now.sentDelta == was.sentDelta && now.errored == was.errored
  }

  lemma BlockMarksNothing(s: State, i: int, block: Option<Block>, fam: Family)
    ensures Unmarked(s, StartBlock(s, i, block, fam).next)
  {}

  lemma DeltaMarksNothing(s: State, i: int, kind: DeltaKind, text: string, blank: BlockKind, fam: Family)
    ensures Unmarked(s, Delta(s, i, kind, text, blank, fam).next)
  {}

  lemma MiddleMarksNothing(s: State, ev: Event, fam: Family)
    requires !s.errored && !ev.MessageDelta? && !ev.MessageStop? && !ev.StreamError?
    ensures Unmarked(s, Encode(s, ev, fam).next)
  {
    match ev
    case BlockStart(i, block) => BlockMarksNothing(s, i, block, fam);
    case TextDelta(i, text) =>
      DeltaMarksNothing(s.(text := s.text[i := TextSoFar(s, i) + text]), i, DeltaText, text, BlockText, fam);
    case ThinkingDelta(i, text) => DeltaMarksNothing(s, i, DeltaThinking, text, BlockThinking, fam);
    case SigDelta(i, text, _) => DeltaMarksNothing(s, i, DeltaSignature, text, BlockThinking, fam);
    case ToolInput(i, text) => DeltaMarksNothing(s, i, DeltaInputJson, text, BlockToolUse, fam);
    case _ =>
  }

  lemma StepMarks(s: State, ev: Event, fam: Family)
    requires !s.errored && (s.stopped ==> s.sentDelta)
    ensures var next := Encode(s, ev, fam).next;
      next.stopped == (s.stopped || ev.MessageStop?) && next.sentDelta == (s.sentDelta || ev.MessageDelta? || ev.MessageStop?)
  {
    if ev.MessageDelta? || ev.MessageStop? || ev.StreamError? {
      CloseEachErrs(s, s.order);
      CloseEachErrs(s.(started := true), s.order);
    } else {
      MiddleMarksNothing(s, ev, fam);
    }
  }

  lemma StopCloses(s: State)
    requires s.stopped ==> s.sentDelta
    ensures Shown(Stop(s).frames, Closings)
         == if s.stopped then []
            else (if s.sentDelta then [] else [FMessageDelta("end_turn", "")]) + [FMessageStop]
  {
    if !s.stopped {
      var begun := Start(s, "", "");
      var delta := if s.sentDelta then [] else [MessageDeltaFrame(StopEndTurn, "")];
      CloseEachIsWordless(begun.next, s.order);
      QuietThenCloses(begun.frames + CloseAll(begun.next).frames, delta + [FMessageStop]);
      Associate(begun.frames + CloseAll(begun.next).frames, delta, [FMessageStop]);
    }
  }

  lemma {:induction false} RunCloses(evs: seq<Event>, fam: Family)
    ensures var run := EncodeAll(FRESH, evs, fam);
      && run.next.stopped == Ended(evs) && run.next.sentDelta == (Concluded(evs) || Ended(evs))
      && Shown(run.frames, Closings) == ClosingsHeard(evs)
  {
    if evs == [] {
    } else {
      var front, ev := evs[..|evs| - 1], evs[|evs| - 1];
      var before := EncodeAll(FRESH, front, fam);
      RunCloses(front, fam);
      RunErrs(front, fam);
      FrontLast(evs);
      EndedMore(front, ev);
      ShownConcat(before.frames, Encode(before.next, ev, fam).frames, Closings);
      if !before.next.errored { StepCloses(before.next, ev, fam, front); }
    }
  }

  lemma ClosingsMore(evs: seq<Event>, ev: Event)
    requires !HadError(evs)
    ensures ClosingsHeard(evs + [ev]) == ClosingsHeard(evs) + ClosingFor(evs, ev)
  {
    assert (evs + [ev])[..|evs|] == evs;
  }

  /** The client is told every stop reason, ping and error once and in order; a stream that ends
      without a reason gets one; and a stream that breaks off ends as if it had been stopped. */
  lemma EndIsTold(evs: seq<Event>, fam: Family)
    ensures Shown(Transcript(evs, fam), Closings)
         == ClosingsHeard(if Ended(evs) || HadError(evs) then evs else evs + [MessageStop])
  {
    var run := EncodeAll(FRESH, evs, fam);
    RunCloses(evs, fam);
    RunErrs(evs, fam);
    ShownConcat(run.frames, Finish(run.next).frames, Closings);
    if run.next.stopped || run.next.errored {
      ConcatNothing(run.frames);
    } else {
      StopCloses(run.next);
      ClosingsMore(evs, MessageStop);
    }
  }

  /** `convertStopReason`: how a stop reason is read back from the wire. */
  function ConvertStopReason(wire: string): StopReason {
    if wire == "end_turn" then StopEndTurn
    else if wire == "max_tokens" then StopMaxTokens
    else if wire == "stop_sequence" then StopSequenceHit
    else if wire == "tool_use" then StopToolUse
    else if wire == "refusal" then StopContentFilter
    else if wire == "pause_turn" then StopPauseTurn
    else if wire == "model_context_window_exceeded" then StopContextWindow
    else if wire == "" then StopUnset
    else StopContentFilter
  }

  /** A stop reason survives the wire exactly when the protocol has one for it; what it has none
      for still reads as an incomplete answer, and no reason at all as a complete one. */
  lemma StopReasonsReadBack(s: StopReason)
    ensures ConvertStopReason(RenderStopReason(s)) == s <==> s != StopUnset && s != StopMaxMessages && s != StopSteered
    ensures s == StopMaxMessages || s == StopSteered ==> ConvertStopReason(RenderStopReason(s)) == StopMaxTokens
    ensures ConvertStopReason(RenderStopReason(StopUnset)) == StopEndTurn
  {
    assert "end_turn" != "max_tokens" by { assert "end_turn"[0] != "max_tokens"[0]; }
  }
}
