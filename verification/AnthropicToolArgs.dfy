/** The tool arguments an Anthropic client assembles from `input_json_delta` frames. */
module AnthropicToolArgs {
  import opened Ir
  import opened AnthropicStream
  import opened AnthropicGrammar

  /** What the client concatenates for block `index`. */
  function Partial(fs: seq<Frame>, index: int): string {
    if fs == [] then ""
    else
      var f := fs[|fs| - 1];
      Partial(fs[..|fs| - 1], index) + (if f.FDelta? && f.index == index && f.kind == DeltaInputJson then f.text else "")
  }

  lemma {:induction false} PartialConcat(a: seq<Frame>, b: seq<Frame>, index: int)
    ensures Partial(a + b, index) == Partial(a, index) + Partial(b, index)
  {
    if b == [] {
      assert a + b == a;
    } else {
      assert (a + b)[..|a + b| - 1] == a + b[..|b| - 1];
      PartialConcat(a, b[..|b| - 1], index);
    }
  }

  lemma PartialOne(f: Frame, index: int)
    ensures Partial([f], index) == if f.FDelta? && f.index == index && f.kind == DeltaInputJson then f.text else ""
  {
    assert [f][..0] == [];
  }

  function Concat(parts: seq<string>): string {
    if parts == [] then "" else Concat(parts[..|parts| - 1]) + parts[|parts| - 1]
  }

  /** The input an event brings to block `index` while it is open. */
  function More(s: State, ev: Event, index: int): seq<string> {
    if !s.errored && ev.ToolInput? && ev.index == index && index in s.open then [ev.text] else []
  }

  /** The inputs that reached block `index` while it was open. */
  function Inputs(evs: seq<Event>, fam: Family, index: int): seq<string> {
    if evs == [] then []
    else
      var n := |evs| - 1;
      var s := EncodeAll(FRESH, evs[..n], fam).next;
      Inputs(evs[..n], fam, index) + More(s, evs[n], index)
  }

  predicate IsToolFrame(f: Frame, index: int) {
    f.FBlockStart? && f.index == index && (f.wireType == "tool_use" || f.wireType == "server_tool_use")
  }

  predicate StartsTool(fs: seq<Frame>, index: int) {
    exists k :: 0 <= k < |fs| && IsToolFrame(fs[k], index)
  }

  lemma StartsToolConcat(a: seq<Frame>, b: seq<Frame>, index: int)
    ensures StartsTool(a + b, index) <==> StartsTool(a, index) || StartsTool(b, index)
  {
    if StartsTool(a, index) {
      var k :| 0 <= k < |a| && IsToolFrame(a[k], index);
      assert IsToolFrame((a + b)[k], index);
    }
    if StartsTool(b, index) {
      var k :| 0 <= k < |b| && IsToolFrame(b[k], index);
      assert IsToolFrame((a + b)[|a| + k], index);
    }
  }

  /** The event stops block `index`. */
  predicate Closes(s: State, ev: Event, index: int) {
    && index in s.open && !s.errored
    && ((ev.BlockStop? && ev.index == index) || ev.MessageDelta? || (ev.MessageStop? && !s.stopped) || ev.StreamError?)
  }

  function Padding(s: State, index: int): string { if index in s.pending then "{}" else "" }

  /** What closing the blocks of `order` does for block `index`. */
  ghost predicate Sheds(s: State, step: Step, order: seq<int>, index: int) {
    && Partial(step.frames, index) == (if index in s.open && index in order then Padding(s, index) else "")
    && !StartsTool(step.frames, index)
    && (index in step.next.pending <==> index in s.pending && !(index in s.open && index in order))
    && (index in step.next.open <==> index in s.open && index !in order)
    && step.next == s.(open := step.next.open, pending := step.next.pending)
  }

  /** Closing one block, then the others. */
  lemma ShedsBoth(s: State, closed: int, rest: Step, order: seq<int>, index: int)
    requires closed in s.open && Sheds(Close(s, closed).next, rest, order, index)
    ensures Sheds(s, Step(rest.next, Close(s, closed).frames + rest.frames, false), [closed] + order, index)
  {
    var first := Close(s, closed);
    ClosePartial(s, closed, index);
    PartialConcat(first.frames, rest.frames, index);
    StartsToolConcat(first.frames, rest.frames, index);
    assert index in [closed] + order <==> index == closed || index in order;
  }

  lemma {:induction false} CloseEachPartial(s: State, order: seq<int>, index: int)
    ensures Sheds(s, CloseEach(s, order), order, index)
    decreases order
  {
    if order == [] {
    } else {
      assert order == [order[0]] + order[1..];
      if order[0] in s.open {
        CloseEachPartial(Close(s, order[0]).next, order[1..], index);
        ShedsBoth(s, order[0], CloseEach(Close(s, order[0]).next, order[1..]), order[1..], index);
      } else {
        CloseEachPartial(s, order[1..], index);
      }
    }
  }

  /** What closing all blocks does for block `index`. */
  lemma CloseAllPartial(s: State, index: int)
    requires Sound(s)
    ensures var step := CloseAll(s);
      && Partial(step.frames, index) == (if index in s.open then Padding(s, index) else "")
      && !StartsTool(step.frames, index) && index !in step.next.open
      && (index in step.next.pending <==> index in s.pending && index !in s.open)
      && step.next == s.(open := step.next.open, pending := step.next.pending)
  {
    CloseEachPartial(s, s.order, index);
    assert index in s.open ==> index in s.order;
  }

  lemma ClosePartial(s: State, closed: int, index: int)
    ensures var step := Close(s, closed);
      && Partial(step.frames, index) == (if index == closed then Padding(s, index) else "")
      && !StartsTool(step.frames, index)
  {
    var pad := if closed in s.pending then [FDelta(closed, DeltaInputJson, "{}")] else [];
    PartialConcat(pad, [FBlockStop(closed)], index);
    PartialOne(FBlockStop(closed), index);
    if pad != [] { PartialOne(pad[0], index); }
  }

  lemma {:induction false} NoInputNoPartial(fs: seq<Frame>, index: int)
    requires forall k :: 0 <= k < |fs| ==> !(fs[k].FDelta? && fs[k].kind == DeltaInputJson)
    ensures Partial(fs, index) == ""
  {
    if fs == [] {
    } else {
      NoInputNoPartial(fs[..|fs| - 1], index);
    }
  }

  /** What one event adds to the arguments of block `index`. */
  function Added(s: State, ev: Event, index: int): string {
    if s.errored then ""
    else if ev.ToolInput? && ev.index == index && index in s.open then ev.text
    else if Closes(s, ev, index) then Padding(s, index)
    else ""
  }

  /** Which blocks await their first input after the event. */
  ghost predicate PendingAfter(s: State, ev: Event, step: Step, index: int) {
    index in step.next.pending <==>
      if StartsTool(step.frames, index) then true
      else index in s.pending && !Closes(s, ev, index) && !(ev.ToolInput? && ev.index == index && !s.errored)
  }

  /** What one event does for block `index`. */
  ghost predicate Advances(s: State, ev: Event, step: Step, index: int) {
    && Partial(step.frames, index) == Added(s, ev, index)
    && PendingAfter(s, ev, step, index)
    && (index in step.next.open <==> (index in s.open && !Closes(s, ev, index)) || (index in step.next.order && index !in s.order))
    && (StartsTool(step.frames, index) ==> index in step.next.open && index !in s.order)
    && (index in s.order ==> index in step.next.order)
  }

  lemma StepPartial(s: State, ev: Event, fam: Family, index: int)
    requires Sound(s) && Admissible(s, ev, fam)
    ensures Advances(s, ev, Encode(s, ev, fam), index)
  {
    if s.errored {
      QuietStep(s, ev, Encode(s, ev, fam), index);
    } else {
      match ev
      case BlockStart(_, _) => StepBlockStart(s, ev, fam, index);
      case TextDelta(_, _) => StepTextDelta(s, ev, fam, index);
      case ToolInput(_, _) => StepToolInput(s, ev, fam, index);
      case BlockStop(_) => StepBlockStop(s, ev, fam, index);
      case MessageDelta(_, _, _, _, _) => StepConclude(s, ev, fam, index);
      case MessageStop => StepConclude(s, ev, fam, index);
      case StreamError(_) => StepError(s, ev, fam, index);
      case CitationDelta(i, cs) => CitationPartial(s, i, cs); QuietStep(s, ev, Encode(s, ev, fam), index);
      case _ => QuietStep(s, ev, Encode(s, ev, fam), index);
    }
  }

  /** A step that moves no block and writes no input. */
  lemma QuietStep(s: State, ev: Event, step: Step, index: int)
    requires step.next.open == s.open && step.next.order == s.order && step.next.pending == s.pending
    requires s.errored || (!ev.ToolInput? && !Closes(s, ev, index))
    requires forall f :: f in step.frames ==> !f.FBlockStart? && !(f.FDelta? && f.kind == DeltaInputJson)
    ensures Advances(s, ev, step, index)
  {
    forall k | 0 <= k < |step.frames|
      ensures !(step.frames[k].FDelta? && step.frames[k].kind == DeltaInputJson) && !IsToolFrame(step.frames[k], index)
    {
      assert step.frames[k] in step.frames;
    }
    NoInputNoPartial(step.frames, index);
  }

  /** An input delta goes to its own block, which no longer waits for one. */
  lemma InputAdvances(s: State, ev: Event, step: Step, index: int)
    requires !s.errored && ev.ToolInput? && ev.index in s.open
    requires step.frames == [FDelta(ev.index, DeltaInputJson, ev.text)]
    requires step.next == s.(pending := s.pending - {ev.index})
    ensures Advances(s, ev, step, index)
  {
    PartialOne(step.frames[0], index);
    assert !StartsTool(step.frames, index);
  }

  lemma StepToolInput(s: State, ev: Event, fam: Family, index: int)
    requires Sound(s) && Admissible(s, ev, fam) && !s.errored && ev.ToolInput?
    ensures Advances(s, ev, Encode(s, ev, fam), index)
  {
    if ev.index in s.open { InputAdvances(s, ev, Encode(s, ev, fam), index); }
  }

  lemma StepBlockStop(s: State, ev: Event, fam: Family, index: int)
    requires Sound(s) && Admissible(s, ev, fam) && !s.errored && ev.BlockStop?
    ensures Advances(s, ev, Encode(s, ev, fam), index)
  {
    if ev.index in s.open {
      ClosePartial(s, ev.index, index);
    } else {
      QuietStep(s, ev, Encode(s, ev, fam), index);
    }
  }

  lemma StepBlockStart(s: State, ev: Event, fam: Family, index: int)
    requires Sound(s) && Admissible(s, ev, fam) && !s.errored && ev.BlockStart?
    ensures Advances(s, ev, Encode(s, ev, fam), index)
  {
    NoInputNoPartial(Encode(s, ev, fam).frames, index);
    StartBlockTools(s, ev.index, ev.block, fam, index);
  }

  /** A text delta without a block opens one, and writes no tool frame and no input. */
  lemma OpenedForText(s: State, i: int, text: string, fam: Family, index: int)
    requires Sound(s) && Admissible(s, TextDelta(i, text), fam) && !s.errored && i !in s.open
    ensures var step := Encode(s, TextDelta(i, text), fam);
      && step.next.open == s.open + {i} && step.next.order == s.order + [i] && step.next.pending == s.pending
      && NoToolFrames(step.frames, index)
  {}

  ghost predicate NoToolFrames(fs: seq<Frame>, index: int) {
    forall k :: 0 <= k < |fs| ==> !IsToolFrame(fs[k], index) && !(fs[k].FDelta? && fs[k].kind == DeltaInputJson)
  }

  /** A step that opens block `i` for something else than a tool. */
  lemma OpenedAdvances(s: State, ev: Event, step: Step, i: int, index: int)
    requires ev.TextDelta? && !s.errored && NoToolFrames(step.frames, index)
    requires step.next.open == s.open + {i} && step.next.order == s.order + [i] && step.next.pending == s.pending
    requires i in s.open || i !in s.order
    ensures Advances(s, ev, step, index)
  {
    NoInputNoPartial(step.frames, index);
    assert step.next.order[|s.order|] == i;
  }

  lemma StepTextDelta(s: State, ev: Event, fam: Family, index: int)
    requires Sound(s) && Admissible(s, ev, fam) && !s.errored && ev.TextDelta?
    ensures Advances(s, ev, Encode(s, ev, fam), index)
  {
    var i, step := ev.index, Encode(s, ev, fam);
    if i in s.open {
      QuietStep(s, ev, step, index);
    } else {
      OpenedForText(s, i, ev.text, fam, index);
      OpenedAdvances(s, ev, step, i, index);
    }
  }

  lemma StepConclude(s: State, ev: Event, fam: Family, index: int)
    requires Sound(s) && Admissible(s, ev, fam) && !s.errored && (ev.MessageDelta? || ev.MessageStop?)
    ensures Advances(s, ev, Encode(s, ev, fam), index)
  {
    if ev.MessageDelta? {
      ConcludePartial(s, [MessageDeltaFrame(ev.stopReason, ev.stopSequence)], index);
    } else if s.stopped {
      assert Encode(s, ev, fam).frames == [];
    } else {
      var delta := if s.sentDelta then [] else [MessageDeltaFrame(StopEndTurn, "")];
      ConcludePartial(s, delta + [FMessageStop], index);
      assert Encode(s, ev, fam).frames == Quiet(s) + (delta + [FMessageStop]);
    }
  }

  lemma StepError(s: State, ev: Event, fam: Family, index: int)
    requires Sound(s) && Admissible(s, ev, fam) && !s.errored && ev.StreamError?
    ensures Advances(s, ev, Encode(s, ev, fam), index)
  {
    CloseAllPartial(s, index);
    PartialConcat(CloseAll(s).frames, [FError(ev.message)], index);
    PartialOne(FError(ev.message), index);
    StartsToolConcat(CloseAll(s).frames, [FError(ev.message)], index);
  }

  lemma StartBlockTools(s: State, i: int, block: Option<Block>, fam: Family, index: int)
    requires Sound(s) && !s.errored
    ensures var step := StartBlock(s, i, block, fam);
      StartsTool(step.frames, index) <==>
        var opening := OpeningOf(block, fam);
        i == index && opening.Opened? && IsToolStart(block, opening.wireType)
  {
    var step := StartBlock(s, i, block, fam);
    if step.frames != [] {
      var k := |step.frames| - 1;
      assert IsToolFrame(step.frames[k], index) ==> StartsTool(step.frames, index);
    }
  }

  lemma {:induction false} CitationPartial(s: State, i: int, cs: seq<Citation>)
    ensures forall f :: f in CitationFrames(i, TextSoFar(s, i), cs) ==> f.FDelta? && f.kind == DeltaCitation
  {
    if cs == [] {
    } else {
      CitationPartial(s, i, cs[..|cs| - 1]);
    }
  }

  function Quiet(s: State): seq<Frame> {
    Start(s, "", "").frames + CloseAll(Start(s, "", "").next).frames
  }

  lemma ConcludePartial(s: State, tail: seq<Frame>, index: int)
    requires Sound(s) && forall k :: 0 <= k < |tail| ==> tail[k].FMessageDelta? || tail[k].FMessageStop?
    ensures var next := CloseAll(Start(s, "", "").next).next;
      && Partial(Quiet(s) + tail, index) == (if index in s.open then Padding(s, index) else "")
      && !StartsTool(Quiet(s) + tail, index)
      && index !in next.open && (index in next.pending <==> index in s.pending && index !in s.open)
      && next.order == s.order
  {
    var begun := Start(s, "", "");
    var closed := CloseAll(begun.next);
    CloseAllPartial(begun.next, index);
    NoInputNoPartial(begun.frames, index);
    NoInputNoPartial(tail, index);
    PartialConcat(begun.frames, closed.frames, index);
    PartialConcat(Quiet(s), tail, index);
    StartsToolConcat(begun.frames, closed.frames, index);
    StartsToolConcat(Quiet(s), tail, index);
  }

  /** How far the arguments of block `index` have come. */
  ghost predicate ArgsState(s: State, written: seq<Frame>, inputs: seq<string>, index: int) {
    var tool, partial := StartsTool(written, index), Partial(written, index);
    && (index !in s.order ==> !tool && partial == "" && inputs == [])
    && (tool && index in s.open ==> partial == Concat(inputs) && (index in s.pending <==> inputs == []))
    && (tool && index !in s.open ==> partial == if inputs == [] then "{}" else Concat(inputs))
    && (!tool ==> index !in s.pending)
  }

  lemma {:induction false} ArgsFollow(evs: seq<Event>, fam: Family, index: int)
    requires AllAdmissible(FRESH, evs, fam)
    ensures var run := EncodeAll(FRESH, evs, fam);
      ArgsState(run.next, run.frames, Inputs(evs, fam, index), index)
  {
    if evs == [] {
    } else {
      var n := |evs| - 1;
      AdmissiblePrefix(FRESH, evs, fam);
      ArgsFollow(evs[..n], fam, index);
      StreamFollows(evs[..n], fam);
      var front := EncodeAll(FRESH, evs[..n], fam);
      ArgsStep(front.next, evs[n], fam, front.frames, Inputs(evs[..n], fam, index), index);
    }
  }

  lemma ArgsMore(s: State, ev: Event, step: Step, written: seq<Frame>, inputs: seq<string>, index: int)
    requires Advances(s, ev, step, index) && ArgsState(s, written, inputs, index)
    requires index in s.open ==> index in s.order
    ensures ArgsState(step.next, written + step.frames, inputs + More(s, ev, index), index)
  {
    PartialConcat(written, step.frames, index);
    StartsToolConcat(written, step.frames, index);
    if More(s, ev, index) == [] {
      assert inputs + [] == inputs;
    } else {
      assert (inputs + [ev.text])[..|inputs|] == inputs;
      assert Concat(inputs + [ev.text]) == Concat(inputs) + ev.text;
    }
  }

  lemma ArgsStep(s: State, ev: Event, fam: Family, written: seq<Frame>, inputs: seq<string>, index: int)
    requires Sound(s) && Admissible(s, ev, fam) && ArgsState(s, written, inputs, index)
    ensures var step := Encode(s, ev, fam);
      ArgsState(step.next, written + step.frames, inputs + More(s, ev, index), index)
  {
    StepPartial(s, ev, fam, index);
    ArgsMore(s, ev, Encode(s, ev, fam), written, inputs, index);
  }

  /** For every tool block of every admissible stream, the client assembles exactly the
      inputs that arrived, or an empty object when none did, wherever the stream broke off. */
  lemma ToolArgumentsArrive(evs: seq<Event>, fam: Family, index: int)
    requires AllAdmissible(FRESH, evs, fam) && StartsTool(Transcript(evs, fam), index)
    ensures var inputs := Inputs(evs, fam, index);
      Partial(Transcript(evs, fam), index) == if inputs == [] then "{}" else Concat(inputs)
  {
    var run := EncodeAll(FRESH, evs, fam);
    var plain := Family(_ => false, _ => None);
    ArgsFollow(evs, fam, index);
    StreamFollows(evs, fam);
    if run.next.stopped || run.next.errored {
      assert Transcript(evs, fam) == run.frames && run.next.open == {};
    } else {
      ArgsStep(run.next, MessageStop, plain, run.frames, Inputs(evs, fam, index), index);
      StopFollows(run.next);
      assert Inputs(evs, fam, index) + [] == Inputs(evs, fam, index);
    }
  }
}
