/** The Gemini stream decoder: backend/codec/gemini/decode_stream.go.

    A frame is a whole response object whose parts continue one another; block boundaries,
    call ids and the terminators are made up here.  Frames arrive already parsed. */
module GeminiStream {
  import opened Ir
  import opened Aggregate

  const NAME := "gemini"

  datatype Call = Call(id: string, name: string, args: string)

  datatype Part = Part(call: Option<Call>, thought: bool, text: string, signature: string)

  /** `citations` are those that `candidateCitations` finds, `finish` is the converted reason. */
  datatype Candidate = Candidate(index: int, parts: seq<Part>, citations: seq<Citation>, finish: Option<StopReason>)

  datatype WireFrame =
    | ErrorFrame(message: string)
    | ResponseFrame(responseId: string, model: string, usage: Option<Usage>, tier: string,
                    blocked: bool, candidates: seq<Candidate>)

  type SynthId = (string, string, nat) -> string

  // ----- the decoder as a transition system -----

  datatype OpenBlock = OpenBlock(index: nat, kind: BlockKind)

  datatype State = State(
    started: bool, done: bool, current: Option<OpenBlock>, nextIndex: nat, messageId: string,
    callCounter: nat, sawCall: bool, stopReason: StopReason, usage: Option<Usage>, tier: string,
    emitted: string, textIndex: nat, sawText: bool)

  const FRESH := State(false, false, None, 0, "", 0, false, StopUnset, None, "", "", 0, false)

  datatype Out = Out(next: State, events: seq<Event>)

  function StripNul(s: string): (t: string)
    ensures '\0' !in t && |t| <= |s|
  {
    if s == "" then "" else StripNul(s[..|s| - 1]) + (if s[|s| - 1] == '\0' then "" else [s[|s| - 1]])
  }

  /** What a text part adds to the text sent so far: a frame that repeats everything adds its
      suffix only, one that repeats less adds nothing. */
  function Added(emitted: string, text: string): string {
    if emitted == text then ""
    else if emitted != "" && emitted <= text then text[|emitted|..]
    else if emitted != "" && text <= emitted then ""
    else text
  }

  function CloseCurrent(d: State): Out {
    if d.current.None? then Out(d, []) else Out(d.(current := None), [BlockStop(d.current.value.index)])
  }

  function BlockOf(kind: BlockKind): Block {
    if kind == BlockThinking then EmptyBlock(kind).(thinking := Some(NO_THINKING.(signatureFrom := NAME)))
    else EmptyBlock(kind)
  }

  /** Makes sure that the open block is of the given kind. */
  function SwitchTo(d: State, kind: BlockKind): Out {
    if d.current.Some? && d.current.value.kind == kind then Out(d, [])
    else
      var closed := CloseCurrent(d);
      Out(closed.next.(current := Some(OpenBlock(d.nextIndex, kind)), nextIndex := d.nextIndex + 1),
          closed.events + [BlockStart(d.nextIndex, Some(BlockOf(kind)))])
  }

  function UseOf(d: State, call: Call, signature: string, synth: SynthId): ToolUse {
    NO_TOOL_USE.(
      id := if call.id != "" then call.id else synth(d.messageId, call.name, d.callCounter + 1),
      name := call.name, signature := signature, signatureFrom := if signature != "" then NAME else "")
  }

  /** A call arrives whole: block, input and end at once. */
  function EmitCall(d: State, call: Call, signature: string, synth: SynthId): Out {
    var closed := CloseCurrent(d);
    var i := d.nextIndex;
    var block := EmptyBlock(BlockToolUse).(toolUse := Some(UseOf(d, call, signature, synth)));
    Out(closed.next.(sawCall := true, nextIndex := i + 1,
                     callCounter := if call.id != "" then d.callCounter else d.callCounter + 1),
        closed.events + [BlockStart(i, Some(block)), ToolInput(i, call.args), BlockStop(i)])
  }

  function DecodeThought(d: State, p: Part): Out {
    var switched := SwitchTo(d, BlockThinking);
    var i, text := switched.next.current.value.index, StripNul(p.text);
    Out(switched.next,
        switched.events + (if text != "" then [ThinkingDelta(i, text)] else [])
        + (if p.signature != "" then [SigDelta(i, p.signature, NAME)] else []))
  }

  function DecodeText(d: State, p: Part): Out {
    var added := Added(d.emitted, StripNul(p.text));
    if StripNul(p.text) == "" || added == "" then Out(d, [])
    else
      var switched := SwitchTo(d.(emitted := d.emitted + added), BlockText);
      var i := switched.next.current.value.index;
      Out(switched.next.(textIndex := i, sawText := true), switched.events + [TextDelta(i, added)])
  }

  function DecodePart(d: State, p: Part, synth: SynthId): Out {
    if p.call.Some? then EmitCall(d, p.call.value, p.signature, synth)
    else if p.thought then DecodeThought(d, p)
    else if p.text != "" then DecodeText(d, p)
    else Out(d, [])
  }

  function DecodeParts(d: State, parts: seq<Part>, synth: SynthId): Out {
    if parts == [] then Out(d, [])
    else
      var front := DecodeParts(d, parts[..|parts| - 1], synth);
      var last := DecodePart(front.next, parts[|parts| - 1], synth);
      Out(last.next, front.events + last.events)
  }

  /** Only the first of several candidates is decoded. */
  function DecodeCandidate(d: State, c: Candidate, synth: SynthId): Out {
    if c.index != 0 then Out(d, [])
    else
      var parts := DecodeParts(d, c.parts, synth);
      var cited := if c.citations != [] && parts.next.sawText
                   then [CitationDelta(parts.next.textIndex, c.citations)] else [];
      Out(if c.finish.Some? then parts.next.(stopReason := c.finish.value) else parts.next, parts.events + cited)
  }

  function DecodeCandidates(d: State, cs: seq<Candidate>, synth: SynthId): Out {
    if cs == [] then Out(d, [])
    else
      var front := DecodeCandidates(d, cs[..|cs| - 1], synth);
      var last := DecodeCandidate(front.next, cs[|cs| - 1], synth);
      Out(last.next, front.events + last.events)
  }

  function Start(d: State, model: string): Out {
    if d.started then Out(d, [])
    else Out(d.(started := true), [MessageStart(d.messageId, model, NO_RECEIPTS, None, 0, "", None)])
  }

  function Heed(d: State, f: WireFrame): State
    requires f.ResponseFrame?
  {
    d.(usage := if f.usage.None? then d.usage
                else if d.usage.None? then f.usage else Some(MergeUsage(d.usage.value, f.usage.value)),
       tier := if f.tier != "" then f.tier else d.tier,
       stopReason := if f.blocked then StopContentFilter else d.stopReason)
  }

  function FeedOne(d: State, f: WireFrame, synth: SynthId): Out {
    if f.ErrorFrame? then Out(d, [StreamError(f.message)])
    else
      var begun := Start(if f.responseId != "" then d.(messageId := f.responseId) else d, f.model);
      var decoded := DecodeCandidates(Heed(begun.next, f), f.candidates, synth);
      Out(decoded.next, begun.events + decoded.events)
  }

  function FinalReason(d: State): StopReason {
    var reason := if d.stopReason == StopUnset then StopEndTurn else d.stopReason;
    if d.sawCall && reason == StopEndTurn then StopToolUse else reason
  }

  function Finish(d: State): Out {
    if d.done then Out(d, [])
    else
      var closed := CloseCurrent(d.(done := true));
      Out(closed.next,
          closed.events
          + [MessageDelta(FinalReason(d), "", None, NO_RECEIPTS.(serviceTier := d.tier), d.usage), MessageStop])
  }

  function FeedAll(d: State, fs: seq<WireFrame>, synth: SynthId): Out {
    if fs == [] then Out(d, [])
    else
      var front := FeedAll(d, fs[..|fs| - 1], synth);
      var last := FeedOne(front.next, fs[|fs| - 1], synth);
      Out(last.next, front.events + last.events)
  }

  // ----- the decoder itself -----

  class StreamDecoder {
    var started: bool
    var done: bool
    var current: Option<OpenBlock>
    var nextIndex: nat
    var messageId: string
    var callCounter: nat
    var sawCall: bool
    var stopReason: StopReason
    var usage: Option<Usage>
    var serviceTier: string
    var emittedText: string
    var textIndex: nat
    var sawText: bool
    const synth: SynthId

    function Abs(): State
      reads this
    {
      State(started, done, current, nextIndex, messageId, callCounter, sawCall, stopReason, usage,
            serviceTier, emittedText, textIndex, sawText)
    }

    constructor (synth: SynthId)
      ensures Abs() == FRESH && this.synth == synth
    {
      this.synth := synth;
      started, done, current, nextIndex, messageId := false, false, None, 0, "";
      callCounter, sawCall, stopReason, usage := 0, false, StopUnset, None;
      serviceTier, emittedText, textIndex, sawText := "", "", 0, false;
    }

    method CloseBlock() returns (out: seq<Event>)
      modifies this`current
      ensures Out(Abs(), out) == CloseCurrent(old(Abs()))
    {
      if current.None? {
        return [];
      }
      out := [BlockStop(current.value.index)];
      current := None;
    }

    method Switch(kind: BlockKind) returns (out: seq<Event>)
      modifies this`current, this`nextIndex
      ensures Out(Abs(), out) == SwitchTo(old(Abs()), kind)
    {
      if current.Some? && current.value.kind == kind {
        return [];
      }
      out := CloseBlock();
      var index := nextIndex;
      nextIndex := nextIndex + 1;
      current := Some(OpenBlock(index, kind));
      out := out + [BlockStart(index, Some(BlockOf(kind)))];
    }

    method Classify(text: string) returns (delta: string)
      modifies this`emittedText
      ensures delta == Added(old(emittedText), text) && emittedText == old(emittedText) + delta
    {
      var emitted := emittedText;
      if emitted == text {
        return "";
      }
      if emitted != "" && emitted <= text {
        delta := text[|emitted|..];
        emittedText := emittedText + delta;
        return;
      }
      if emitted != "" && text <= emitted {
        return "";
      }
      delta := text;
      emittedText := emittedText + text;
    }

    method AddCall(call: Call, signature: string) returns (out: seq<Event>)
      modifies this
      ensures Out(Abs(), out) == EmitCall(old(Abs()), call, signature, synth)
    {
      var use := UseOf(Abs(), call, signature, synth);
      out := CloseBlock();
      sawCall := true;
      var index := nextIndex;
      nextIndex := nextIndex + 1;
      if call.id == "" {
        callCounter := callCounter + 1;
      }
      out := out + [BlockStart(index, Some(EmptyBlock(BlockToolUse).(toolUse := Some(use)))),
                    ToolInput(index, call.args), BlockStop(index)];
    }

    method AddPart(p: Part) returns (out: seq<Event>)
      modifies this
      ensures Out(Abs(), out) == DecodePart(old(Abs()), p, synth)
    {
      out := [];
      if p.call.Some? {
        out := AddCall(p.call.value, p.signature);
      } else if p.thought {
        out := Switch(BlockThinking);
        var text := StripNul(p.text);
        if text != "" {
          out := out + [ThinkingDelta(current.value.index, text)];
        }
        if p.signature != "" {
          out := out + [SigDelta(current.value.index, p.signature, NAME)];
        }
      } else if p.text != "" {
        var text := StripNul(p.text);
        if text == "" {
          return;
        }
        var delta := Classify(text);
        if delta == "" {
          assert old(emittedText) + delta == old(emittedText);
          return;
        }
        out := Switch(BlockText);
        textIndex, sawText := current.value.index, true;
        out := out + [TextDelta(current.value.index, delta)];
      }
    }

    method AddParts(parts: seq<Part>) returns (out: seq<Event>)
      modifies this
      ensures Out(Abs(), out) == DecodeParts(old(Abs()), parts, synth)
    {
      out := [];
      for k := 0 to |parts|
        invariant Out(Abs(), out) == DecodeParts(old(Abs()), parts[..k], synth)
      {
        assert parts[..k + 1][..k] == parts[..k];
        var events := AddPart(parts[k]);
        out := out + events;
      }
      assert parts[..|parts|] == parts;
    }

    method AddCandidates(cs: seq<Candidate>) returns (out: seq<Event>)
      modifies this
      ensures Out(Abs(), out) == DecodeCandidates(old(Abs()), cs, synth)
    {
      out := [];
      for k := 0 to |cs|
        invariant Out(Abs(), out) == DecodeCandidates(old(Abs()), cs[..k], synth)
      {
        assert cs[..k + 1][..k] == cs[..k];
        var events := AddCandidate(cs[k]);
        out := out + events;
      }
      assert cs[..|cs|] == cs;
    }

    method AddCandidate(c: Candidate) returns (out: seq<Event>)
      modifies this
      ensures Out(Abs(), out) == DecodeCandidate(old(Abs()), c, synth)
    {
      if c.index != 0 {
        return [];
      }
      out := AddParts(c.parts);
      if |c.citations| > 0 && sawText {
        out := out + [CitationDelta(textIndex, c.citations)];
      }
      if c.finish.Some? {
        stopReason := c.finish.value;
      }
    }

    method StartMessage(model: string) returns (out: seq<Event>)
      modifies this`started
      ensures Out(Abs(), out) == Start(old(Abs()), model)
    {
      if started {
        return [];
      }
      started := true;
      out := [MessageStart(messageId, model, NO_RECEIPTS, None, 0, "", None)];
    }

    method HeedFrame(f: WireFrame)
      requires f.ResponseFrame?
      modifies this`usage, this`serviceTier, this`stopReason
      ensures Abs() == Heed(old(Abs()), f)
    {
      if f.usage.Some? {
        usage := if usage.None? then f.usage else Some(MergeUsage(usage.value, f.usage.value));
      }
      if f.tier != "" {
        serviceTier := f.tier;
      }
      if f.blocked {
        stopReason := StopContentFilter;
      }
    }

    method Feed(f: WireFrame) returns (out: seq<Event>)
      modifies this
      ensures Out(Abs(), out) == FeedOne(old(Abs()), f, synth)
    {
      if f.ErrorFrame? {
        return [StreamError(f.message)];
      }
      if f.responseId != "" {
        messageId := f.responseId;
      }
      out := StartMessage(f.model);
      HeedFrame(f);
      var events := AddCandidates(f.candidates);
      out := out + events;
    }

    method FinishStream() returns (out: seq<Event>)
      modifies this
      ensures Out(Abs(), out) == Finish(old(Abs()))
    {
      if done {
        return [];
      }
      done := true;
      var reason := FinalReason(Abs());
      out := CloseBlock();
      out := out + [MessageDelta(reason, "", None, NO_RECEIPTS.(serviceTier := serviceTier), usage), MessageStop];
    }
  }
}
