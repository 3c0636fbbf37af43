/** The Anthropic stream encoder: backend/codec/anthropic/encode_stream.go, with the choice
    of `encodeBlock` in encode_request.go between opening, skipping and refusing a block.

    `Encode` is the transition function of the encoder; `StreamEncoder` is the encoder itself,
    proved to take exactly these transitions.  Marshalling always succeeds here. */
module AnthropicStream {
  import opened Ir

  const NAME := "anthropic"

  /** What the encoder asks of code outside the model: whether a signature's prefix names
      another vendor, and which block can carry a medium, if any. */
  datatype Family = Family(foreignPrefix: string -> bool, container: Media -> Option<string>)

  predicate ForeignSignature(signature: string, from: string, fam: Family) {
    signature != "" && (fam.foreignPrefix(signature) || from != NAME)
  }

  // ----- opening, skipping or refusing a block -----

  datatype Opening = Refused | Skipped | Opened(wireType: string)

  function OpenMedia(kind: BlockKind, media: Media, fam: Family): Opening {
    if !media.HasPayload() then
      if media.fileId != "" && kind == BlockImage then Opened("image")
      else if media.fileId != "" && kind == BlockDocument then Opened("document")
      else Skipped
    else
      match fam.container(media)
      case Some(wireType) => Opened(wireType)
      case None => Opened("text")
  }

  function OpenThinking(t: Thinking, fam: Family): Opening {
    if t.redacted then if t.redactedData == "" then Skipped else Opened("redacted_thinking")
    else
      var signature := if ForeignSignature(t.signature, t.signatureFrom, fam) then "" else t.signature;
      if t.text == "" && signature == "" then Skipped else Opened("thinking")
  }

  /** `encodeBlock`, reduced to its decision. */
  function EncodeBlock(b: Block, fam: Family): Opening
    decreases b
  {
    match b.kind
    case BlockText => Opened("text")
    case BlockRefusal => Opened("text")
    case BlockImage => if b.media.None? then Refused else OpenMedia(b.kind, b.media.value, fam)
    case BlockAudio => if b.media.None? then Refused else OpenMedia(b.kind, b.media.value, fam)
    case BlockDocument => if b.media.None? then Refused else OpenMedia(b.kind, b.media.value, fam)
    case BlockFile => if b.media.None? then Refused else OpenMedia(b.kind, b.media.value, fam)
    case BlockToolUse => if b.toolUse.None? then Refused else Opened("tool_use")
    case BlockToolResult =>
      if b.toolResult.None? then Refused
      else if exists i :: 0 <= i < |b.toolResult.value.content| && EncodeBlock(b.toolResult.value.content[i], fam) == Refused
      then Refused else Opened("tool_result")
    case BlockThinking => if b.thinking.None? then Skipped else OpenThinking(b.thinking.value, fam)
    case BlockServerToolUse => if b.serverToolUse.None? then Refused else Opened("server_tool_use")
    case BlockWebSearchToolResult => if b.webSearch.None? then Refused else Opened("web_search_tool_result")
    case BlockContainerUpload => Opened("container_upload")
    case BlockOpaque =>
      if b.opaqueBody.Some? && b.opaqueBody.value.body != "" && b.opaqueBody.value.from == NAME
      then Opened(b.opaqueBody.value.wireType) else Refused
  }

  /** What a `content_block_start` event leads to.  An empty thinking block is skipped in a
      message body but opened in a stream, where its text is still to come. */
  function OpeningOf(block: Option<Block>, fam: Family): Opening {
    if block.None? then Opened("text")
    else
      var b, opening := block.value, EncodeBlock(block.value, fam);
      if opening == Skipped && b.kind == BlockThinking && b.thinking.Some? && !b.thinking.value.redacted
      then Opened("thinking") else opening
  }

  predicate IsToolStart(block: Option<Block>, wireType: string) {
    block.Some? && (wireType == "tool_use" || wireType == "server_tool_use")
  }

  // ----- frames -----

  datatype DeltaKind = DeltaText | DeltaThinking | DeltaSignature | DeltaInputJson | DeltaCitation

  datatype Frame =
    | FMessageStart(id: string, model: string)
    | FBlockStart(index: int, wireType: string)
    | FDelta(index: int, kind: DeltaKind, text: string)
    | FBlockStop(index: int)
    | FMessageDelta(reason: string, sequence: string)
    | FMessageStop
    | FPing
    | FError(message: string)

  function RenderStopReason(s: StopReason): string {
    match s
    case StopEndTurn => "end_turn"
    case StopMaxTokens => "max_tokens"
    case StopSequenceHit => "stop_sequence"
    case StopToolUse => "tool_use"
    case StopContentFilter => "refusal"
    case StopContextWindow => "model_context_window_exceeded"
    case StopPauseTurn => "pause_turn"
    case StopMaxMessages => "max_tokens"
    case StopSteered => "max_tokens"
    case StopUnset => "end_turn"
  }

  function MessageDeltaFrame(reason: StopReason, sequence: string): Frame {
    FMessageDelta(RenderStopReason(reason), if reason == StopSequenceHit then sequence else "")
  }

  function ResolveCitedText(text: string, c: Citation): string {
    if c.citedText != "" then c.citedText
    else if c.end <= c.start || c.start < 0 || c.end > |text| then ""
    else text[c.start..c.end]
  }

  /** One frame per citation that has its original form or can be rebuilt from the text. */
  function CitationFrames(index: int, text: string, cs: seq<Citation>): seq<Frame> {
    if cs == [] then []
    else
      var c := cs[|cs| - 1];
      var wire := if c.raw != "" then c.raw else ResolveCitedText(text, c);
      CitationFrames(index, text, cs[..|cs| - 1]) + (if wire == "" then [] else [FDelta(index, DeltaCitation, wire)])
  }

  // ----- the encoder as a transition system -----

  datatype State = State(
    started: bool, stopped: bool, errored: bool, sentDelta: bool,
    open: set<int>, pending: set<int>, order: seq<int>, text: map<int, string>)

  const FRESH := State(false, false, false, false, {}, {}, [], map[])

  datatype Step = Step(next: State, frames: seq<Frame>, failed: bool)

  function Start(s: State, id: string, model: string): Step {
    if s.started then Step(s, [], false)
    else Step(s.(started := true), [FMessageStart(if id == "" then "msg_unknown" else id, model)], false)
  }

  function StartBlock(s: State, index: int, block: Option<Block>, fam: Family): Step {
    var begun := Start(s, "", "");
    match OpeningOf(block, fam)
    case Refused => Step(begun.next, [], true)
    case Skipped => begun
    case Opened(wireType) =>
      var next := begun.next.(
        open := s.open + {index},
        order := if index in s.open then s.order else s.order + [index],
        pending := if IsToolStart(block, wireType) then s.pending + {index} else s.pending);
      Step(next, begun.frames + [FBlockStart(index, wireType)], false)
  }

  /** A delta for a block that is not open opens an empty block of the fitting kind first. */
  function Delta(s: State, index: int, kind: DeltaKind, text: string, blank: BlockKind, fam: Family): Step {
    if index in s.open then Step(s, [FDelta(index, kind, text)], false)
    else
      var begun := StartBlock(s, index, Some(EmptyBlock(blank)), fam);
      if begun.failed then begun else Step(begun.next, begun.frames + [FDelta(index, kind, text)], false)
  }

  /** A tool block that saw no input gets an empty object before it closes. */
  function Close(s: State, index: int): Step {
    Step(s.(open := s.open - {index}, pending := s.pending - {index}),
         (if index in s.pending then [FDelta(index, DeltaInputJson, "{}")] else []) + [FBlockStop(index)], false)
  }

  function CloseEach(s: State, order: seq<int>): (step: Step)
    ensures !step.failed
    decreases order
  {
    if order == [] then Step(s, [], false)
    else if order[0] in s.open then
      var first := Close(s, order[0]);
      var rest := CloseEach(first.next, order[1..]);
      Step(rest.next, first.frames + rest.frames, false)
    else CloseEach(s, order[1..])
  }

  function CloseAll(s: State): Step { CloseEach(s, s.order) }

  function Conclude(s: State, reason: StopReason, sequence: string): Step {
    var begun := Start(s, "", "");
    var closed := CloseAll(begun.next);
    Step(closed.next.(sentDelta := true), begun.frames + closed.frames + [MessageDeltaFrame(reason, sequence)], false)
  }

  function Stop(s: State): Step {
    if s.stopped then Step(s, [], false)
    else
      var begun := Start(s, "", "");
      var closed := CloseAll(begun.next);
      var delta := if s.sentDelta then [] else [MessageDeltaFrame(StopEndTurn, "")];
      Step(closed.next.(sentDelta := true, stopped := true),
           begun.frames + closed.frames + delta + [FMessageStop], false)
  }

  function TextSoFar(s: State, index: int): string { if index in s.text then s.text[index] else "" }

  function Encode(s: State, ev: Event, fam: Family): Step {
    if s.errored then Step(s, [], false)
    else match ev
      case MessageStart(id, model, _, _, _, _, _) => Start(s, id, model)
      case BlockStart(index, block) => StartBlock(s, index, block, fam)
      case TextDelta(index, text) =>
        Delta(s.(text := s.text[index := TextSoFar(s, index) + text]), index, DeltaText, text, BlockText, fam)
      case ThinkingDelta(index, text) => Delta(s, index, DeltaThinking, text, BlockThinking, fam)
      case SigDelta(index, text, from) =>
        if ForeignSignature(text, from, fam) then Step(s, [], false)
        else Delta(s, index, DeltaSignature, text, BlockThinking, fam)
      case ToolInput(index, text) =>
        var d := Delta(s, index, DeltaInputJson, text, BlockToolUse, fam);
        d.(next := d.next.(pending := d.next.pending - {index}))
      case CitationDelta(index, cs) =>
        Step(s, if index in s.open then CitationFrames(index, TextSoFar(s, index), cs) else [], false)
      case BlockStop(index) => if index in s.open then Close(s, index) else Step(s, [], false)
      case MessageDelta(reason, sequence, _, _, _) => Conclude(s, reason, sequence)
      case MessageStop => Stop(s)
      case Ping => Step(s, [FPing], false)
      case StreamError(message) =>
        var closed := CloseAll(s);
        Step(closed.next.(errored := true), closed.frames + [FError(message)], false)
  }

  function Finish(s: State): Step {
    if s.stopped || s.errored then Step(s, [], false) else Encode(s, MessageStop, Family(_ => false, _ => None))
  }

  // ----- the encoder itself -----

  class StreamEncoder {
    var started: bool
    var stopped: bool
    var errored: bool
    var sentDelta: bool
    var openBlocks: set<int>
    var toolPending: set<int>
    var blockOrder: seq<int>
    var text: map<int, string>
    const fam: Family

    function Abs(): State
      reads this
    {
      State(started, stopped, errored, sentDelta, openBlocks, toolPending, blockOrder, text)
    }

    constructor (fam: Family)
      ensures Abs() == FRESH && this.fam == fam
    {
      this.fam := fam;
      started, stopped, errored, sentDelta := false, false, false, false;
      openBlocks, toolPending, blockOrder, text := {}, {}, [], map[];
    }

    method EncodeStart(id: string, model: string) returns (out: seq<Frame>)
      modifies this
      ensures var step := Start(old(Abs()), id, model); Abs() == step.next && out == step.frames
    {
      if started {
        return [];
      }
      started := true;
      out := [FMessageStart(if id == "" then "msg_unknown" else id, model)];
    }

    method Open(index: int)
      modifies this`openBlocks, this`blockOrder
      ensures openBlocks == old(openBlocks) + {index}
      ensures blockOrder == if index in old(openBlocks) then old(blockOrder) else old(blockOrder) + [index]
    {
      if index !in openBlocks {
        blockOrder := blockOrder + [index];
      }
      openBlocks := openBlocks + {index};
    }

    method EncodeBlockStart(index: int, block: Option<Block>) returns (out: seq<Frame>, failed: bool)
      modifies this
      ensures Step(Abs(), out, failed) == StartBlock(old(Abs()), index, block, fam)
    {
      failed := false;
      out := EncodeStart("", "");
      var wireType := "text";
      if block.Some? {
        var opening := EncodeBlock(block.value, fam);
        if opening.Refused? {
          return [], true;
        }
        if opening.Skipped? {
          var b := block.value;
          if b.kind == BlockThinking && b.thinking.Some? && !b.thinking.value.redacted {
            wireType := "thinking";
          } else {
            return;
          }
        } else {
          wireType := opening.wireType;
        }
        if wireType == "tool_use" || wireType == "server_tool_use" {
          toolPending := toolPending + {index};
        }
      }
      Open(index);
      out := out + [FBlockStart(index, wireType)];
    }

    method EncodeDelta(index: int, kind: DeltaKind, text: string, blank: BlockKind)
      returns (out: seq<Frame>, failed: bool)
      modifies this
      ensures Step(Abs(), out, failed) == Delta(old(Abs()), index, kind, text, blank, fam)
    {
      out, failed := [], false;
      if index !in openBlocks {
        out, failed := EncodeBlockStart(index, Some(EmptyBlock(blank)));
        if failed {
          return [], true;
        }
      }
      out := out + [FDelta(index, kind, text)];
    }

    method CloseFrames(index: int) returns (out: seq<Frame>)
      modifies this`openBlocks, this`toolPending
      ensures Step(Abs(), out, false) == Close(old(Abs()), index)
    {
      out := [];
      if index in toolPending {
        toolPending := toolPending - {index};
        out := [FDelta(index, DeltaInputJson, "{}")];
      }
      openBlocks := openBlocks - {index};
      out := out + [FBlockStop(index)];
    }

    method CloseAllFrames() returns (out: seq<Frame>)
      modifies this`openBlocks, this`toolPending
      ensures Step(Abs(), out, false) == CloseAll(old(Abs()))
    {
      out := [];
      assert blockOrder[0..] == blockOrder && [] + CloseAll(Abs()).frames == CloseAll(Abs()).frames;
      for k := 0 to |blockOrder|
        invariant blockOrder == old(blockOrder)
        invariant var rest := CloseEach(Abs(), blockOrder[k..]);
          CloseAll(old(Abs())) == Step(rest.next, out + rest.frames, false)
      {
        ghost var before, rest := out, blockOrder[k..];
        assert rest[0] == blockOrder[k] && rest[1..] == blockOrder[k + 1..];
        if blockOrder[k] !in openBlocks {
          continue;
        }
        var frames := CloseFrames(blockOrder[k]);
        out := out + frames;
        ghost var tail := CloseEach(Abs(), blockOrder[k + 1..]).frames;
        assert before + (frames + tail) == out + tail;
      }
    }

    method EncodeEvent(ev: Event) returns (out: seq<Frame>, failed: bool)
      modifies this
      ensures Step(Abs(), out, failed) == Encode(old(Abs()), ev, fam)
    {
      out, failed := [], false;
      if errored {
        return;
      }
      match ev
      case MessageStart(id, model, _, _, _, _, _) =>
        out := EncodeStart(id, model);
      case BlockStart(index, block) =>
        out, failed := EncodeBlockStart(index, block);
      case TextDelta(index, delta) =>
        text := text[index := (if index in text then text[index] else "") + delta];
        out, failed := EncodeDelta(index, DeltaText, delta, BlockText);
      case ThinkingDelta(index, delta) =>
        out, failed := EncodeDelta(index, DeltaThinking, delta, BlockThinking);
      case SigDelta(index, delta, from) =>
        if ForeignSignature(delta, from, fam) {
          return;
        }
        out, failed := EncodeDelta(index, DeltaSignature, delta, BlockThinking);
      case ToolInput(index, delta) =>
        out, failed := EncodeDelta(index, DeltaInputJson, delta, BlockToolUse);
        toolPending := toolPending - {index};
      case CitationDelta(index, cs) =>
        if index !in openBlocks {
          return;
        }
        out := EncodeCitations(index, cs);
      case BlockStop(index) =>
        if index !in openBlocks {
          return;
        }
        out := CloseFrames(index);
      case MessageDelta(reason, sequence, _, _, _) =>
        out := EncodeStart("", "");
        var closing := CloseAllFrames();
        out := out + closing + [MessageDeltaFrame(reason, sequence)];
        sentDelta := true;
      case MessageStop =>
        out := EncodeMessageStop();
      case Ping =>
        out := [FPing];
      case StreamError(message) =>
        var closing := CloseAllFrames();
        errored := true;
        out := closing + [FError(message)];
    }

    method EncodeCitations(index: int, cs: seq<Citation>) returns (out: seq<Frame>)
      ensures out == CitationFrames(index, TextSoFar(Abs(), index), cs)
    {
      out := [];
      var full := if index in text then text[index] else "";
      for k := 0 to |cs|
        invariant out == CitationFrames(index, full, cs[..k])
      {
        assert cs[..k + 1][..k] == cs[..k];
        var c := cs[k];
        var wire := if c.raw != "" then c.raw else ResolveCitedText(full, c);
        if wire != "" {
          out := out + [FDelta(index, DeltaCitation, wire)];
        }
      }
      assert cs[..|cs|] == cs;
    }

    method EncodeMessageStop() returns (out: seq<Frame>)
      modifies this
      ensures Step(Abs(), out, false) == Stop(old(Abs()))
    {
      if stopped {
        return [];
      }
      out := EncodeStart("", "");
      var closing := CloseAllFrames();
      out := out + closing;
      if !sentDelta {
        out := out + [MessageDeltaFrame(StopEndTurn, "")];
        sentDelta := true;
      }
      stopped := true;
      out := out + [FMessageStop];
    }

    method FinishStream() returns (out: seq<Frame>)
      modifies this
      ensures Step(Abs(), out, false) == Finish(old(Abs()))
    {
      if stopped || errored {
        return [];
      }
      var failed;
      out, failed := EncodeEvent(MessageStop);
    }
  }
}
