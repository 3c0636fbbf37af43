/** Which blocks an Anthropic client sees open, in which order they stop, and what the citations in
    them say: backend/codec/anthropic/encode_stream.go and citation.go. */
module AnthropicBlocks {
  import opened Ir
  import opened Seqs
  import opened AnthropicStream
  import opened AnthropicGrammar
  import opened AnthropicWords
  import opened AnthropicSignals

  // ----- which blocks open -----

  /** What the frames say last about block `i`: that it opened, or that it stopped. */
  function Verdict(fs: seq<Frame>, i: int): Option<bool> {
    if fs == [] then None
    else
      var f := fs[|fs| - 1];
      if f.FBlockStart? && f.index == i then Some(true)
      else if f.FBlockStop? && f.index == i then Some(false)
      else Verdict(fs[..|fs| - 1], i)
  }

  /** To the client, block `i` is open. */
  predicate OpenShown(fs: seq<Frame>, i: int) { Verdict(fs, i) == Some(true) }

  lemma {:induction false} VerdictConcat(a: seq<Frame>, b: seq<Frame>, i: int)
    ensures Verdict(a + b, i) == if Verdict(b, i).Some? then Verdict(b, i) else Verdict(a, i)
  {
    if b == [] {
      ConcatNothing(a);
    } else {
      ConcatFront(a, b);
      VerdictConcat(a, b[..|b| - 1], i);
    }
  }

  lemma {:induction false} NoVerdict(fs: seq<Frame>, i: int)
    requires forall f :: f in fs ==> !f.FBlockStart? && !f.FBlockStop?
    ensures Verdict(fs, i) == None
  {
    if fs == [] {
    } else {
      NoVerdict(fs[..|fs| - 1], i);
    }
  }

  lemma VerdictOne(f: Frame, i: int)
    ensures Verdict([f], i) == if f.FBlockStart? && f.index == i then Some(true)
                               else if f.FBlockStop? && f.index == i then Some(false) else None
  {
    assert [f][..0] == [];
    assert Verdict([f][..0], i) == None;
  }

  /** The step leaves block `i` as its frames say, or as it was. */
  ghost predicate Heeds(s: State, step: Step, i: int) {
    i in step.next.open <==> (if Verdict(step.frames, i).Some? then Verdict(step.frames, i) == Some(true) else i in s.open)
  }

  lemma CloseHeeds(s: State, closed: int, i: int)
    ensures Heeds(s, Close(s, closed), i)
  {
    var pad := if closed in s.pending then [FDelta(closed, DeltaInputJson, "{}")] else [];
    VerdictConcat(pad, [FBlockStop(closed)], i);
    VerdictOne(FBlockStop(closed), i);
    NoVerdict(pad, i);
  }

  lemma {:induction false} CloseEachHeeds(s: State, order: seq<int>, i: int)
    ensures Heeds(s, CloseEach(s, order), i)
    decreases order
  {
    if order == [] {
    } else if order[0] in s.open {
      var first := Close(s, order[0]);
      CloseHeeds(s, order[0], i);
      CloseEachHeeds(first.next, order[1..], i);
      VerdictConcat(first.frames, CloseEach(first.next, order[1..]).frames, i);
    } else {
      CloseEachHeeds(s, order[1..], i);
    }
  }

  /** Frames that open and stop nothing, before and after. */
  lemma HeedsBetween(s: State, pre: seq<Frame>, step: Step, post: seq<Frame>, i: int)
    requires Heeds(s, step, i)
    requires forall f :: f in pre ==> !f.FBlockStart? && !f.FBlockStop?
    requires forall f :: f in post ==> !f.FBlockStart? && !f.FBlockStop?
    ensures Heeds(s, Step(step.next, pre + step.frames + post, step.failed), i)
  {
    VerdictConcat(pre + step.frames, post, i);
    VerdictConcat(pre, step.frames, i);
    NoVerdict(pre, i);
    NoVerdict(post, i);
  }

  lemma StartBlockHeeds(s: State, index: int, block: Option<Block>, fam: Family, i: int)
    ensures Heeds(s, StartBlock(s, index, block, fam), i)
  {
    var begun := Start(s, "", "");
    NoVerdict(begun.frames, i);
    match OpeningOf(block, fam)
    case Refused =>
    case Skipped =>
    case Opened(wireType) =>
      VerdictConcat(begun.frames, [FBlockStart(index, wireType)], i);
      VerdictOne(FBlockStart(index, wireType), i);
  }

  lemma DeltaHeeds(s: State, index: int, kind: DeltaKind, text: string, blank: BlockKind, fam: Family, i: int)
    ensures Heeds(s, Delta(s, index, kind, text, blank, fam), i)
  {
    var f := FDelta(index, kind, text);
    NoVerdict([f], i);
    if index !in s.open {
      var begun := StartBlock(s, index, Some(EmptyBlock(blank)), fam);
      StartBlockHeeds(s, index, Some(EmptyBlock(blank)), fam, i);
      VerdictConcat(begun.frames, [f], i);
    }
  }

  lemma ConcludeHeeds(s: State, post: seq<Frame>, i: int)
    requires forall f :: f in post ==> !f.FBlockStart? && !f.FBlockStop?
    ensures var begun := Start(s, "", "");
      var closed := CloseAll(begun.next);
      Heeds(s, Step(closed.next, begun.frames + closed.frames + post, false), i)
  {
    var begun := Start(s, "", "");
    CloseEachHeeds(begun.next, begun.next.order, i);
    HeedsBetween(begun.next, begun.frames, CloseAll(begun.next), post, i);
  }

  lemma StopHeeds(s: State, i: int)
    ensures Heeds(s, Stop(s), i)
  {
    if !s.stopped {
      var delta := if s.sentDelta then [] else [MessageDeltaFrame(StopEndTurn, "")];
      ConcludeHeeds(s, delta + [FMessageStop], i);
      Associate(Start(s, "", "").frames + CloseAll(Start(s, "", "").next).frames, delta, [FMessageStop]);
    }
  }

  lemma StepHeeds(s: State, ev: Event, fam: Family, i: int)
    ensures Heeds(s, Encode(s, ev, fam), i)
  {
    if !s.errored {
      match ev
      case MessageStart(id, model, _, _, _, _, _) => NoVerdict(Encode(s, ev, fam).frames, i);
      case BlockStart(index, block) => StartBlockHeeds(s, index, block, fam, i);
      case TextDelta(index, text) =>
        DeltaHeeds(s.(text := s.text[index := TextSoFar(s, index) + text]), index, DeltaText, text, BlockText, fam, i);
      case ThinkingDelta(index, text) => DeltaHeeds(s, index, DeltaThinking, text, BlockThinking, fam, i);
      case SigDelta(index, text, _) => DeltaHeeds(s, index, DeltaSignature, text, BlockThinking, fam, i);
      case ToolInput(index, text) => DeltaHeeds(s, index, DeltaInputJson, text, BlockToolUse, fam, i);
      case CitationDelta(index, cs) =>
        CitationsAreWordless(index, TextSoFar(s, index), cs);
        NoVerdict(Encode(s, ev, fam).frames, i);
      case BlockStop(index) => if index in s.open { CloseHeeds(s, index, i); }
      case MessageDelta(reason, sequence, _, _, _) => ConcludeHeeds(s, [MessageDeltaFrame(reason, sequence)], i);
      case MessageStop => StopHeeds(s, i);
      case Ping => NoVerdict(Encode(s, ev, fam).frames, i);
      case StreamError(message) =>
        CloseEachHeeds(s, s.order, i);
        HeedsBetween(s, [], CloseAll(s), [FError(message)], i);
        ConcatNothing(CloseAll(s).frames);
    }
  }

  lemma {:induction false} RunHeeds(evs: seq<Event>, fam: Family, i: int)
    ensures var run := EncodeAll(FRESH, evs, fam); i in run.next.open <==> OpenShown(run.frames, i)
  {
    if evs == [] {
    } else {
      var front, ev := evs[..|evs| - 1], evs[|evs| - 1];
      var before := EncodeAll(FRESH, front, fam);
      RunHeeds(front, fam, i);
      StepHeeds(before.next, ev, fam, i);
      VerdictConcat(before.frames, Encode(before.next, ev, fam).frames, i);
    }
  }

  // ----- what a block opens as -----

  /** The kind of block that a type on the wire is read as, where there is only one. */
  function KindRead(wireType: string): Option<BlockKind> {
    if wireType == "text" then Some(BlockText)
    else if wireType == "image" then Some(BlockImage)
    else if wireType == "document" then Some(BlockDocument)
    else if wireType == "tool_use" then Some(BlockToolUse)
    else if wireType == "tool_result" then Some(BlockToolResult)
    else if wireType == "thinking" || wireType == "redacted_thinking" then Some(BlockThinking)
    else if wireType == "server_tool_use" then Some(BlockServerToolUse)
    else if wireType == "web_search_tool_result" then Some(BlockWebSearchToolResult)
    else if wireType == "container_upload" then Some(BlockContainerUpload)
    else None
  }

  predicate IsMedia(kind: BlockKind) {
    kind == BlockImage || kind == BlockAudio || kind == BlockDocument || kind == BlockFile
  }

  /** The payload the block cannot be written without is missing, or is another vendor's. */
  predicate LacksPayload(b: Block) {
    || (IsMedia(b.kind) && b.media.None?) || (b.kind == BlockToolUse && b.toolUse.None?)
    || (b.kind == BlockToolResult && b.toolResult.None?) || (b.kind == BlockServerToolUse && b.serverToolUse.None?)
    || (b.kind == BlockWebSearchToolResult && b.webSearch.None?)
    || (b.kind == BlockOpaque
        && (b.opaqueBody.None? || b.opaqueBody.value.body == "" || b.opaqueBody.value.from != "anthropic"))
  }

  /** There is nothing in the block to write: reasoning that is not there, or redacted away, or
      a medium without bytes, address or, for pictures and documents, file. */
  predicate SaysNothing(b: Block) {
    || (b.kind == BlockThinking && b.thinking.None?)
    || (b.kind == BlockThinking && b.thinking.Some? && b.thinking.value.redacted && b.thinking.value.redactedData == "")
    || (IsMedia(b.kind) && b.media.Some? && b.media.value.data == "" && b.media.value.url == ""
        && (b.media.value.fileId == "" || b.kind == BlockAudio || b.kind == BlockFile))
  }

  /** Every block opens as what it is read back as, and reasoning opens even before its text is
      there.  Without its payload a block is refused, and with an empty one it is passed over. */
  lemma BlocksReadBack(b: Block, fam: Family)
    ensures var opening := OpeningOf(Some(b), fam);
      && (opening == Refused <==>
            LacksPayload(b)
            || (b.kind == BlockToolResult && b.toolResult.Some?
                && exists i :: 0 <= i < |b.toolResult.value.content|
                     && EncodeBlock(b.toolResult.value.content[i], fam) == Refused))
      && (opening == Skipped <==> SaysNothing(b))
      && (opening.Opened? && !IsMedia(b.kind) && b.kind != BlockOpaque ==>
            KindRead(opening.wireType) == Some(if b.kind == BlockRefusal then BlockText else b.kind))
      && (opening.Opened? && b.kind == BlockThinking ==>
            (opening.wireType == "redacted_thinking" <==> b.thinking.value.redacted))
      && (opening.Opened? && b.kind == BlockOpaque ==> opening.wireType == b.opaqueBody.value.wireType)
      && (opening.Opened? && IsMedia(b.kind) && b.media.value.data == "" && b.media.value.url == "" ==>
            KindRead(opening.wireType) == Some(b.kind))
      && (opening.Opened? && IsMedia(b.kind) && (b.media.value.data != "" || b.media.value.url != "") ==>
            opening == match fam.container(b.media.value) case Some(wireType) => Opened(wireType) case None => Opened("text"))
  {
    if b.kind == BlockThinking && b.thinking.Some? { assert "thinking" != "redacted_thinking" by { assert |"thinking"| == 8; } }
  }

  /** The block that `ev` opens for the client, which has read `fs` so far. */
  function BlockFor(fs: seq<Frame>, ev: Event, fam: Family): seq<Frame> {
    match ev
    case BlockStart(i, block) =>
      var opening := OpeningOf(block, fam);
      if opening.Opened? then [FBlockStart(i, opening.wireType)] else []
    case TextDelta(i, _) => if OpenShown(fs, i) then [] else [FBlockStart(i, "text")]
    case _ => []
  }

  function BlocksHeard(evs: seq<Event>, fam: Family): seq<Frame> {
    if evs == [] then []
    else
      var front := evs[..|evs| - 1];
      BlocksHeard(front, fam)
      + if HadError(front) then [] else BlockFor(EncodeAll(FRESH, front, fam).frames, evs[|evs| - 1], fam)
  }

  lemma StartBlockShows(s: State, i: int, block: Option<Block>, fam: Family)
    ensures Shown(StartBlock(s, i, block, fam).frames, Blocks)
         == match OpeningOf(block, fam) case Opened(wireType) => [FBlockStart(i, wireType)] case _ => []
  {
    var begun := Start(s, "", "");
    NoneShown(begun.frames, Blocks);
    match OpeningOf(block, fam)
    case Refused =>
    case Skipped =>
    case Opened(wireType) =>
      ShownConcat(begun.frames, [FBlockStart(i, wireType)], Blocks);
      AllShown([FBlockStart(i, wireType)], Blocks);
      ConcatNothing([FBlockStart(i, wireType)]);
  }

  /** What an empty block leads to: only text opens. */
  lemma BlankOpens(blank: BlockKind, fam: Family)
    requires blank == BlockText || blank == BlockThinking || blank == BlockToolUse
    ensures OpeningOf(Some(EmptyBlock(blank)), fam)
         == if blank == BlockText then Opened("text") else if blank == BlockThinking then Skipped else Refused
  {}

  lemma DeltaShowsBlock(s: State, i: int, kind: DeltaKind, text: string, blank: BlockKind, fam: Family)
    requires blank == BlockText || blank == BlockThinking || blank == BlockToolUse
    requires kind == DeltaText || kind == DeltaThinking || kind == DeltaSignature || kind == DeltaInputJson
    ensures Shown(Delta(s, i, kind, text, blank, fam).frames, Blocks)
         == if i !in s.open && blank == BlockText then [FBlockStart(i, "text")] else []
  {
    NoneShown([FDelta(i, kind, text)], Blocks);
    if i !in s.open {
      BlankOpens(blank, fam);
      StartBlockShows(s, i, Some(EmptyBlock(blank)), fam);
      BlankThenDelta(s, i, kind, text, Some(EmptyBlock(blank)), fam);
    }
  }

  lemma BlankThenDelta(s: State, i: int, kind: DeltaKind, text: string, block: Option<Block>, fam: Family)
    requires kind != DeltaCitation
    ensures var begun := StartBlock(s, i, block, fam);
      Shown(begun.frames + [FDelta(i, kind, text)], Blocks) == Shown(begun.frames, Blocks)
  {
    var begun := StartBlock(s, i, block, fam);
    NoneShown([FDelta(i, kind, text)], Blocks);
    ShownConcat(begun.frames, [FDelta(i, kind, text)], Blocks);
    ConcatNothing(Shown(begun.frames, Blocks));
  }

  lemma EndShowsNoBlock(s: State, rest: seq<Frame>)
    requires forall f :: f in rest ==> !f.FBlockStart?
    ensures var begun := Start(s, "", "");
      Shown(begun.frames + CloseAll(begun.next).frames + rest, Blocks) == []
  {
    var begun := Start(s, "", "");
    CloseEachIsWordless(begun.next, begun.next.order);
    NoneShown(begun.frames + CloseAll(begun.next).frames + rest, Blocks);
  }

  lemma PlainShowsNoBlock(s: State, ev: Event, fam: Family)
    requires !s.errored
    requires ev.MessageStart? || ev.CitationDelta? || ev.BlockStop? || ev.Ping? || ev.StreamError?
    ensures Shown(Encode(s, ev, fam).frames, Blocks) == []
  {
    if ev.CitationDelta? { CitationsAreWordless(ev.index, TextSoFar(s, ev.index), ev.citations); }
    CloseEachIsWordless(s, s.order);
    NoneShown(Encode(s, ev, fam).frames, Blocks);
  }

  lemma StepShowsBlock(s: State, ev: Event, fam: Family, fs: seq<Frame>)
    requires !s.errored && (ev.TextDelta? ==> (ev.index in s.open <==> OpenShown(fs, ev.index)))
    ensures Shown(Encode(s, ev, fam).frames, Blocks) == BlockFor(fs, ev, fam)
  {
    match ev
    case BlockStart(i, block) => StartBlockShows(s, i, block, fam);
    case TextDelta(i, text) =>
      DeltaShowsBlock(s.(text := s.text[i := TextSoFar(s, i) + text]), i, DeltaText, text, BlockText, fam);
    case ThinkingDelta(i, text) => DeltaShowsBlock(s, i, DeltaThinking, text, BlockThinking, fam);
    case SigDelta(i, text, _) => DeltaShowsBlock(s, i, DeltaSignature, text, BlockThinking, fam);
    case ToolInput(i, text) => DeltaShowsBlock(s, i, DeltaInputJson, text, BlockToolUse, fam);
    case MessageDelta(reason, sequence, _, _, _) => EndShowsNoBlock(s, [MessageDeltaFrame(reason, sequence)]);
    case MessageStop => StopShowsNoBlock(s);
    case _ => PlainShowsNoBlock(s, ev, fam);
  }

  lemma StopShowsNoBlock(s: State)
    ensures Shown(Stop(s).frames, Blocks) == []
  {
    if !s.stopped {
      var delta := if s.sentDelta then [] else [MessageDeltaFrame(StopEndTurn, "")];
      EndShowsNoBlock(s, delta + [FMessageStop]);
      Associate(Start(s, "", "").frames + CloseAll(Start(s, "", "").next).frames, delta, [FMessageStop]);
    }
  }

  lemma {:induction false} RunShowsBlocks(evs: seq<Event>, fam: Family)
    ensures Shown(EncodeAll(FRESH, evs, fam).frames, Blocks) == BlocksHeard(evs, fam)
  {
    if evs == [] {
    } else {
      var front, ev := evs[..|evs| - 1], evs[|evs| - 1];
      var before := EncodeAll(FRESH, front, fam);
      RunShowsBlocks(front, fam);
      RunErrs(front, fam);
      if ev.TextDelta? { RunHeeds(front, fam, ev.index); }
      ShownConcat(before.frames, Encode(before.next, ev, fam).frames, Blocks);
      if !before.next.errored { StepShowsBlock(before.next, ev, fam, before.frames); }
    }
  }

  /** The blocks that open for the client: each start that can be written, under its own index and
      type, and one block of text for a text that belongs to none that is open. */
  lemma BlocksOpenAsStarted(evs: seq<Event>, fam: Family)
    ensures Shown(Transcript(evs, fam), Blocks) == BlocksHeard(evs, fam)
  {
    var run := EncodeAll(FRESH, evs, fam);
    RunShowsBlocks(evs, fam);
    ShownConcat(run.frames, Finish(run.next).frames, Blocks);
    if !run.next.stopped && !run.next.errored { StopShowsNoBlock(run.next); }
    ConcatNothing(Shown(run.frames, Blocks));
  }

  // ----- in which order blocks stop -----

  /** Where `i` stands first. */
  function FirstAt(order: seq<int>, i: int): nat
    requires i in order
  {
    if order[0] == i then 0 else 1 + FirstAt(order[1..], i)
  }

  /** The blocks `open` stop in the order in which they first stood in `order`, and each once. */
  ghost predicate StopInOrder(stops: seq<Frame>, order: seq<int>, open: set<int>) {
    && (forall k :: 0 <= k < |stops| ==>
          stops[k].FBlockStop? && stops[k].index in order && stops[k].index in open)
    && (forall k, l :: 0 <= k < l < |stops| ==> FirstAt(order, stops[k].index) < FirstAt(order, stops[l].index))
    && (forall i :: i in open && i in order ==> FBlockStop(i) in stops)
  }

  lemma CloseShowsStop(s: State, i: int)
    ensures Shown(Close(s, i).frames, Stops) == [FBlockStop(i)]
  {
    var pad := if i in s.pending then [FDelta(i, DeltaInputJson, "{}")] else [];
    ShownConcat(pad, [FBlockStop(i)], Stops);
    NoneShown(pad, Stops);
    AllShown([FBlockStop(i)], Stops);
    ConcatNothing([FBlockStop(i)]);
  }

  lemma StopsBehind(rest: seq<Frame>, order: seq<int>, open: set<int>)
    requires order != [] && order[0] !in open && StopInOrder(rest, order[1..], open)
    ensures StopInOrder(rest, order, open)
  {
    assert order == [order[0]] + order[1..];
    assert forall k :: 0 <= k < |rest| ==> FirstAt(order, rest[k].index) == 1 + FirstAt(order[1..], rest[k].index);
  }

  lemma StopsNext(rest: seq<Frame>, order: seq<int>, open: set<int>)
    requires order != [] && order[0] in open && StopInOrder(rest, order[1..], open - {order[0]})
    ensures StopInOrder([FBlockStop(order[0])] + rest, order, open)
  {
    var stops := [FBlockStop(order[0])] + rest;
    assert order == [order[0]] + order[1..];
    assert forall k :: 0 <= k < |rest| ==> FirstAt(order, rest[k].index) == 1 + FirstAt(order[1..], rest[k].index);
    forall i | i in open && i in order ensures FBlockStop(i) in stops {
      if i == order[0] { assert stops[0] == FBlockStop(i); } else { assert FBlockStop(i) in rest; }
    }
  }

  lemma {:induction false} CloseEachInOrder(s: State, order: seq<int>)
    ensures StopInOrder(Shown(CloseEach(s, order).frames, Stops), order, s.open)
    decreases order
  {
    if order == [] {
    } else if order[0] in s.open {
      var first := Close(s, order[0]);
      var rest := CloseEach(first.next, order[1..]);
      CloseEachInOrder(first.next, order[1..]);
      CloseShowsStop(s, order[0]);
      ShownConcat(first.frames, rest.frames, Stops);
      StopsNext(Shown(rest.frames, Stops), order, s.open);
    } else {
      CloseEachInOrder(s, order[1..]);
      StopsBehind(Shown(CloseEach(s, order[1..]).frames, Stops), order, s.open);
    }
  }

  /** The order in which the blocks opened for the client. */
  function OpenedOrder(fs: seq<Frame>): seq<int> {
    if fs == [] then []
    else
      var front, f := fs[..|fs| - 1], fs[|fs| - 1];
      if f.FBlockStart? && !OpenShown(front, f.index) then OpenedOrder(front) + [f.index] else OpenedOrder(front)
  }

  lemma {:induction false} OpenedNothing(fs: seq<Frame>, more: seq<Frame>)
    requires forall f :: f in more ==> !f.FBlockStart?
    ensures OpenedOrder(fs + more) == OpenedOrder(fs)
  {
    if more == [] {
      ConcatNothing(fs);
    } else {
      ConcatFront(fs, more);
      OpenedNothing(fs, more[..|more| - 1]);
    }
  }

  lemma {:induction false} ShownMembers(fs: seq<Frame>, sort: Sort)
    ensures forall f :: f in Shown(fs, sort) <==> f in fs && SortOf(f) == Some(sort)
  {
    if fs == [] {
    } else {
      FrontLast(fs);
      ShownMembers(fs[..|fs| - 1], sort);
    }
  }

  /** Frames that open one block at most, and then only after having stopped nothing. */
  lemma OpenedOne(fs: seq<Frame>, pre: seq<Frame>, f: Frame, post: seq<Frame>)
    requires f.FBlockStart?
    requires forall g :: g in pre ==> !g.FBlockStart? && !g.FBlockStop?
    requires forall g :: g in post ==> !g.FBlockStart?
    ensures OpenedOrder(fs + (pre + [f] + post))
         == if OpenShown(fs, f.index) then OpenedOrder(fs) else OpenedOrder(fs) + [f.index]
  {
    Associate(fs, pre + [f], post);
    Associate(fs, pre, [f]);
    OpenedNothing(fs + pre + [f], post);
    OpenedNothing(fs, pre);
    assert (fs + pre + [f])[..|fs + pre|] == fs + pre;
    VerdictConcat(fs, pre, f.index);
    NoVerdict(pre, f.index);
  }

  lemma StartBlockOrders(s: State, fs: seq<Frame>, i: int, block: Option<Block>, fam: Family, post: seq<Frame>)
    requires s.order == OpenedOrder(fs) && (i in s.open <==> OpenShown(fs, i))
    requires forall g :: g in post ==> !g.FBlockStart?
    ensures var step := StartBlock(s, i, block, fam); step.next.order == OpenedOrder(fs + (step.frames + post))
  {
    var begun := Start(s, "", "");
    match OpeningOf(block, fam)
    case Refused => OpenedNothing(fs, [] + post);
    case Skipped => OpenedNothing(fs, begun.frames + post);
    case Opened(wireType) => OpenedOne(fs, begun.frames, FBlockStart(i, wireType), post);
  }

  lemma DeltaOrders(
      s: State, fs: seq<Frame>, i: int, kind: DeltaKind, text: string, blank: BlockKind, fam: Family)
    requires s.order == OpenedOrder(fs) && (i in s.open <==> OpenShown(fs, i))
    ensures var step := Delta(s, i, kind, text, blank, fam); step.next.order == OpenedOrder(fs + step.frames)
  {
    var f := FDelta(i, kind, text);
    if i in s.open {
      OpenedNothing(fs, [f]);
    } else {
      var begun := StartBlock(s, i, Some(EmptyBlock(blank)), fam);
      StartBlockOrders(s, fs, i, Some(EmptyBlock(blank)), fam, []);
      ConcatNothing(begun.frames);
      StartBlockOrders(s, fs, i, Some(EmptyBlock(blank)), fam, [f]);
    }
  }

  lemma {:induction false} CloseEachOrders(s: State, order: seq<int>)
    ensures CloseEach(s, order).next.order == s.order
    decreases order
  {
    if order == [] {
    } else if order[0] in s.open {
      CloseEachOrders(Close(s, order[0]).next, order[1..]);
    } else {
      CloseEachOrders(s, order[1..]);
    }
  }

  lemma OtherOrders(s: State, fs: seq<Frame>, ev: Event, fam: Family)
    requires s.order == OpenedOrder(fs) && !s.errored
    requires !ev.BlockStart? && !ev.TextDelta? && !ev.ThinkingDelta? && !ev.SigDelta? && !ev.ToolInput?
    ensures var step := Encode(s, ev, fam); step.next.order == OpenedOrder(fs + step.frames)
  {
    CloseEachOrders(s, s.order);
    CloseEachOrders(s.(started := true), s.order);
    CloseEachIsWordless(s, s.order);
    CloseEachIsWordless(s.(started := true), s.order);
    if ev.CitationDelta? { CitationsAreWordless(ev.index, TextSoFar(s, ev.index), ev.citations); }
    OpenedNothing(fs, Encode(s, ev, fam).frames);
  }

  lemma StepOrders(s: State, fs: seq<Frame>, ev: Event, fam: Family)
    requires s.order == OpenedOrder(fs) && !s.errored && forall i :: i in s.open <==> OpenShown(fs, i)
    ensures var step := Encode(s, ev, fam); step.next.order == OpenedOrder(fs + step.frames)
  {
    match ev
    case BlockStart(i, block) =>
      StartBlockOrders(s, fs, i, block, fam, []);
      ConcatNothing(StartBlock(s, i, block, fam).frames);
    case TextDelta(i, text) =>
      DeltaOrders(s.(text := s.text[i := TextSoFar(s, i) + text]), fs, i, DeltaText, text, BlockText, fam);
    case ThinkingDelta(i, text) => DeltaOrders(s, fs, i, DeltaThinking, text, BlockThinking, fam);
    case SigDelta(i, text, from) =>
      if ForeignSignature(text, from, fam) { ConcatNothing(fs); }
      else { DeltaOrders(s, fs, i, DeltaSignature, text, BlockThinking, fam); }
    case ToolInput(i, text) => DeltaOrders(s, fs, i, DeltaInputJson, text, BlockToolUse, fam);
    case _ => OtherOrders(s, fs, ev, fam);
  }

  lemma {:induction false} RunOrders(evs: seq<Event>, fam: Family)
    ensures var run := EncodeAll(FRESH, evs, fam); run.next.order == OpenedOrder(run.frames)
  {
    if evs == [] {
    } else {
      var front, ev := evs[..|evs| - 1], evs[|evs| - 1];
      var before := EncodeAll(FRESH, front, fam);
      RunOrders(front, fam);
      forall i | true ensures i in before.next.open <==> OpenShown(before.frames, i) { RunHeeds(front, fam, i); }
      if before.next.errored { ConcatNothing(before.frames); } else { StepOrders(before.next, before.frames, ev, fam); }
    }
  }

  /** The event ends the message or its blocks all at once. */
  predicate ClosesAll(evs: seq<Event>, ev: Event) {
    !HadError(evs) && (ev.MessageDelta? || (ev.MessageStop? && !Ended(evs)) || ev.StreamError?)
  }

  /** Whatever ends the message stops every block that is open to the client, once each, in the
      order in which they opened; a stop of its own stops just that block, if it is open; and
      nothing else stops any. */
  lemma BlocksStopInOrder(evs: seq<Event>, ev: Event, fam: Family)
    ensures var run := EncodeAll(FRESH, evs, fam);
      var stops, order := Shown(Encode(run.next, ev, fam).frames, Stops), OpenedOrder(run.frames);
      if ClosesAll(evs, ev) then
        && (forall i :: OpenShown(run.frames, i) <==> i in run.next.open)
        && StopInOrder(stops, order, run.next.open)
      else stops == if ev.BlockStop? && !HadError(evs) && OpenShown(run.frames, ev.index) then [FBlockStop(ev.index)]
                    else []
  {
    var run := EncodeAll(FRESH, evs, fam);
    forall i | true ensures OpenShown(run.frames, i) <==> i in run.next.open { RunHeeds(evs, fam, i); }
    RunOrders(evs, fam);
    RunErrs(evs, fam);
    RunCloses(evs, fam);
    if ClosesAll(evs, ev) {
      EndStops(run.next, ev, fam);
    } else if !run.next.errored {
      if ev.BlockStop? { CloseShowsStop(run.next, ev.index); } else { NothingStops(run.next, ev, fam); }
    }
  }

  lemma NothingStops(s: State, ev: Event, fam: Family)
    requires !s.errored && !ev.BlockStop? && !ev.MessageDelta? && !ev.StreamError? && (ev.MessageStop? ==> s.stopped)
    ensures Shown(Encode(s, ev, fam).frames, Stops) == []
  {
    if ev.CitationDelta? { CitationsAreWordless(ev.index, TextSoFar(s, ev.index), ev.citations); }
    match ev
    case BlockStart(i, block) => BlockStopsNothing(s, i, block, fam);
    case TextDelta(i, text) =>
      DeltaStopsNothing(s.(text := s.text[i := TextSoFar(s, i) + text]), i, DeltaText, text, BlockText, fam);
    case ThinkingDelta(i, text) => DeltaStopsNothing(s, i, DeltaThinking, text, BlockThinking, fam);
    case SigDelta(i, text, _) => DeltaStopsNothing(s, i, DeltaSignature, text, BlockThinking, fam);
    case ToolInput(i, text) => DeltaStopsNothing(s, i, DeltaInputJson, text, BlockToolUse, fam);
    case _ => NoneShown(Encode(s, ev, fam).frames, Stops);
  }

  lemma DeltaStopsNothing(s: State, i: int, kind: DeltaKind, text: string, blank: BlockKind, fam: Family)
    ensures Shown(Delta(s, i, kind, text, blank, fam).frames, Stops) == []
  {
    NoneShown(Delta(s, i, kind, text, blank, fam).frames, Stops);
  }

  lemma BlockStopsNothing(s: State, i: int, block: Option<Block>, fam: Family)
    ensures Shown(StartBlock(s, i, block, fam).frames, Stops) == []
  {
    NoneShown(StartBlock(s, i, block, fam).frames, Stops);
  }

  lemma EndStops(s: State, ev: Event, fam: Family)
    requires !s.errored && (ev.MessageDelta? || (ev.MessageStop? && !s.stopped) || ev.StreamError?)
    ensures StopInOrder(Shown(Encode(s, ev, fam).frames, Stops), s.order, s.open)
  {
    var delta := if s.sentDelta then [] else [MessageDeltaFrame(StopEndTurn, "")];
    match ev
    case MessageDelta(reason, sequence, _, _, _) => EndShowsStops(s, [MessageDeltaFrame(reason, sequence)]);
    case MessageStop =>
      EndShowsStops(s, delta + [FMessageStop]);
      Associate(Start(s, "", "").frames + CloseAll(Start(s, "", "").next).frames, delta, [FMessageStop]);
    case StreamError(message) =>
      CloseEachInOrder(s, s.order);
      ShownConcat(CloseAll(s).frames, [FError(message)], Stops);
      NoneShown([FError(message)], Stops);
      ConcatNothing(Shown(CloseAll(s).frames, Stops));
  }

  lemma EndShowsStops(s: State, rest: seq<Frame>)
    requires forall f :: f in rest ==> !f.FBlockStop?
    ensures var begun := Start(s, "", "");
      StopInOrder(Shown(begun.frames + CloseAll(begun.next).frames + rest, Stops), s.order, s.open)
  {
    var begun := Start(s, "", "");
    CloseEachInOrder(begun.next, s.order);
    OnlyBetween(begun.frames, CloseAll(begun.next).frames, rest);
  }

  lemma OnlyBetween(pre: seq<Frame>, fs: seq<Frame>, post: seq<Frame>)
    requires forall f :: f in pre ==> !f.FBlockStop?
    requires forall f :: f in post ==> !f.FBlockStop?
    ensures Shown(pre + fs + post, Stops) == Shown(fs, Stops)
  {
    ShownConcat(pre + fs, post, Stops);
    ShownConcat(pre, fs, Stops);
    NoneShown(pre, Stops);
    NoneShown(post, Stops);
    ConcatNothing(Shown(fs, Stops));
  }

  // ----- what the citations say -----

  lemma DeltaKeepsText(s: State, i: int, kind: DeltaKind, text: string, blank: BlockKind, fam: Family)
    ensures Delta(s, i, kind, text, blank, fam).next.text == s.text
  {}

  lemma StepKeepsText(s: State, ev: Event, fam: Family)
    requires s.errored || !ev.TextDelta?
    ensures Encode(s, ev, fam).next.text == s.text
  {
    CloseEachErrs(s, s.order);
    CloseEachErrs(s.(started := true), s.order);
  }

  lemma StepRemembers(s: State, ev: Event, fam: Family, i: int)
    ensures TextSoFar(Encode(s, ev, fam).next, i)
         == TextSoFar(s, i) + if ev.TextDelta? && ev.index == i && !s.errored then ev.text else ""
  {
    ConcatNothing(TextSoFar(s, i));
    if ev.TextDelta? && !s.errored {
      DeltaKeepsText(s.(text := s.text[ev.index := TextSoFar(s, ev.index) + ev.text]),
                     ev.index, DeltaText, ev.text, BlockText, fam);
    } else {
      StepKeepsText(s, ev, fam);
    }
  }

  lemma {:induction false} RunRemembers(evs: seq<Event>, fam: Family, i: int)
    ensures TextSoFar(EncodeAll(FRESH, evs, fam).next, i) == TextHeard(evs, i)
  {
    if evs == [] {
    } else {
      var front, ev := evs[..|evs| - 1], evs[|evs| - 1];
      RunRemembers(front, fam, i);
      RunErrs(front, fam);
      StepRemembers(EncodeAll(FRESH, front, fam).next, ev, fam, i);
      ConcatNothing(TextHeard(front, i));
    }
  }

  /** How a citation reads: as it was given, or by the words it cites, which are told or stand in
      the text at the place it names.  Without either it is left out. */
  predicate ReadsAs(wire: string, c: Citation, text: string) {
    if c.raw != "" then wire == c.raw
    else if c.citedText != "" then wire == c.citedText
    else 0 <= c.start < c.end <= |text| && wire == text[c.start..c.end]
  }

  predicate Readable(c: Citation, text: string) {
    c.raw != "" || c.citedText != "" || 0 <= c.start < c.end <= |text|
  }

  /** `frames` are the citations `cs` that can be read, one frame for each and in order. */
  ghost predicate Cites(frames: seq<Frame>, picks: seq<nat>, cs: seq<Citation>, i: int, text: string) {
    && |frames| == |picks| && (forall k :: 0 <= k < |picks| ==> picks[k] < |cs|)
    && (forall k, l :: 0 <= k < l < |picks| ==> picks[k] < picks[l])
    && (forall k :: 0 <= k < |picks| ==>
          && frames[k].FDelta? && frames[k].index == i && frames[k].kind == DeltaCitation
          && ReadsAs(frames[k].text, cs[picks[k]], text))
    && (forall j :: 0 <= j < |cs| ==> (j in picks <==> Readable(cs[j], text)))
  }

  lemma CitesMore(frames: seq<Frame>, picks: seq<nat>, cs: seq<Citation>, c: Citation, i: int, text: string)
    requires Cites(frames, picks, cs, i, text)
    ensures !Readable(c, text) ==> Cites(frames, picks, cs + [c], i, text)
    ensures forall wire :: Readable(c, text) && ReadsAs(wire, c, text) ==>
      Cites(frames + [FDelta(i, DeltaCitation, wire)], picks + [|cs|], cs + [c], i, text)
  {
    assert forall k :: 0 <= k < |picks| ==> (cs + [c])[picks[k]] == cs[picks[k]];
    assert |cs| !in picks;
    forall wire | Readable(c, text) && ReadsAs(wire, c, text)
      ensures Cites(frames + [FDelta(i, DeltaCitation, wire)], picks + [|cs|], cs + [c], i, text)
    {
      var more := picks + [|cs|];
      forall j | 0 <= j < |cs + [c]| ensures j in more <==> Readable((cs + [c])[j], text) {
        if j == |cs| { assert more[|picks|] == j; } else { assert j in more <==> j in picks; }
      }
    }
  }

  lemma CitationFramesMore(i: int, text: string, cs: seq<Citation>, c: Citation)
    ensures var front, all := CitationFrames(i, text, cs), CitationFrames(i, text, cs + [c]);
      if Readable(c, text)
      then exists wire :: ReadsAs(wire, c, text) && all == front + [FDelta(i, DeltaCitation, wire)]
      else all == front
  {
    assert (cs + [c])[..|cs|] == cs;
    var wire := if c.raw != "" then c.raw else ResolveCitedText(text, c);
    if Readable(c, text) { assert ReadsAs(wire, c, text) && |wire| > 0; }
    ConcatNothing(CitationFrames(i, text, cs));
  }

  lemma {:induction false} CitationsRead(i: int, text: string, cs: seq<Citation>) returns (picks: seq<nat>)
    ensures Cites(CitationFrames(i, text, cs), picks, cs, i, text)
  {
    if cs == [] {
      picks := [];
    } else {
      var front, c := cs[..|cs| - 1], cs[|cs| - 1];
      var before := CitationsRead(i, text, front);
      FrontLast(cs);
      CitationFramesMore(i, text, front, c);
      CitesMore(CitationFrames(i, text, front), before, front, c, i, text);
      picks := if Readable(c, text) then before + [|front|] else before;
    }
  }

  /** Citations reach the client for a block that is open, one frame each and in order, read
      against all the text heard for that block; no other event shows any. */
  lemma CitationsArrive(evs: seq<Event>, ev: Event, fam: Family) returns (picks: seq<nat>)
    ensures var run := EncodeAll(FRESH, evs, fam);
      var cited := Shown(Encode(run.next, ev, fam).frames, Citations);
      if ev.CitationDelta? && !HadError(evs) && OpenShown(run.frames, ev.index)
      then Cites(cited, picks, ev.citations, ev.index, TextHeard(evs, ev.index))
      else cited == []
  {
    var run := EncodeAll(FRESH, evs, fam);
    picks := [];
    RunErrs(evs, fam);
    if !run.next.errored {
      if ev.CitationDelta? {
        var i := ev.index;
        RunHeeds(evs, fam, i);
        RunRemembers(evs, fam, i);
        picks := CitationsRead(i, TextHeard(evs, i), ev.citations);
        CitationsAreWordless(i, TextHeard(evs, i), ev.citations);
        AllShown(CitationFrames(i, TextHeard(evs, i), ev.citations), Citations);
      } else {
        NothingCited(run.next, ev, fam);
      }
    }
  }

  lemma EndCitesNothing(s: State, ev: Event, fam: Family)
    requires !s.errored && (ev.MessageDelta? || ev.MessageStop? || ev.StreamError? || ev.BlockStop?)
    ensures Shown(Encode(s, ev, fam).frames, Citations) == []
  {
    CloseEachIsWordless(s, s.order);
    CloseEachIsWordless(s.(started := true), s.order);
    NoneShown(Encode(s, ev, fam).frames, Citations);
  }

  lemma NothingCited(s: State, ev: Event, fam: Family)
    requires !s.errored && !ev.CitationDelta?
    ensures Shown(Encode(s, ev, fam).frames, Citations) == []
  {
    match ev
    case BlockStart(i, block) => BlockCitesNothing(s, i, block, fam);
    case TextDelta(i, text) =>
      DeltaCitesNothing(s.(text := s.text[i := TextSoFar(s, i) + text]), i, DeltaText, text, BlockText, fam);
    case ThinkingDelta(i, text) => DeltaCitesNothing(s, i, DeltaThinking, text, BlockThinking, fam);
    case SigDelta(i, text, _) => DeltaCitesNothing(s, i, DeltaSignature, text, BlockThinking, fam);
    case ToolInput(i, text) => DeltaCitesNothing(s, i, DeltaInputJson, text, BlockToolUse, fam);
    case MessageStart(id, model, _, _, _, _, _) => NoneShown(Start(s, id, model).frames, Citations);
    case Ping => NoneShown([FPing], Citations);
    case _ => EndCitesNothing(s, ev, fam);
  }

  lemma DeltaCitesNothing(s: State, i: int, kind: DeltaKind, text: string, blank: BlockKind, fam: Family)
    requires kind != DeltaCitation
    ensures Shown(Delta(s, i, kind, text, blank, fam).frames, Citations) == []
  {
    NoneShown(Delta(s, i, kind, text, blank, fam).frames, Citations);
  }

  lemma BlockCitesNothing(s: State, i: int, block: Option<Block>, fam: Family)
    ensures Shown(StartBlock(s, i, block, fam).frames, Citations) == []
  {
    NoneShown(StartBlock(s, i, block, fam).frames, Citations);
  }
}
