/** What the Gemini decoder guarantees about its events, and that the Anthropic encoder turns
    them into complete streams. */
module GeminiGrammar {
  import opened Ir
  import opened Seqs
  import opened GeminiStream
  import Anthropic = AnthropicStream
  import Grammar = AnthropicGrammar

  // ----- well-bracketed event streams -----

  datatype Phase = Before | Streaming | Ending | Ended

  /** One block at a time, numbered from zero; `texts` are the text blocks started so far. */
  datatype Bracket = Bracket(phase: Phase, current: Option<OpenBlock>, next: nat, texts: set<int>)

  const NEW_BRACKET := Bracket(Before, None, 0, {})

  /** The payload a block of its kind must start with. */
  predicate Startable(b: Block) {
    match b.kind
    case BlockText => true
    case BlockThinking => b.thinking.Some? && !b.thinking.value.redacted
    case BlockToolUse => b.toolUse.Some?
    case _ => false
  }

  predicate InBlock(b: Bracket, index: int, kind: BlockKind) {
    b.phase == Streaming && b.current.Some? && b.current.value.index == index && b.current.value.kind == kind
  }

  function Accept(b: Bracket, ev: Event): Option<Bracket> {
    match ev
    case MessageStart(_, _, _, _, _, _, _) => if b.phase == Before then Some(b.(phase := Streaming)) else None
    case BlockStart(i, block) =>
      if b.phase == Streaming && b.current.None? && i == b.next && block.Some? && Startable(block.value)
      then Some(b.(current := Some(OpenBlock(b.next, block.value.kind)), next := b.next + 1,
                   texts := if block.value.kind == BlockText then b.texts + {i} else b.texts))
      else None
    case TextDelta(i, _) => if InBlock(b, i, BlockText) then Some(b) else None
    case ThinkingDelta(i, _) => if InBlock(b, i, BlockThinking) then Some(b) else None
    case SigDelta(i, _, _) => if InBlock(b, i, BlockThinking) then Some(b) else None
    case ToolInput(i, _) => if InBlock(b, i, BlockToolUse) then Some(b) else None
    case CitationDelta(i, _) => if b.phase == Streaming && i in b.texts then Some(b) else None
    case BlockStop(i) =>
      if b.phase == Streaming && b.current.Some? && b.current.value.index == i then Some(b.(current := None)) else None
    case MessageDelta(_, _, _, _, _) =>
      if b.phase == Streaming && b.current.None? then Some(b.(phase := Ending)) else None
    case MessageStop => if b.phase == Ending then Some(b.(phase := Ended)) else None
    case Ping => Some(b)
    case StreamError(_) => if b.phase != Ended then Some(b) else None
  }

  function Follow(b: Option<Bracket>, evs: seq<Event>): Option<Bracket> {
    if evs == [] then b
    else match Follow(b, evs[..|evs| - 1])
      case None => None
      case Some(mid) => Accept(mid, evs[|evs| - 1])
  }

  lemma {:induction false} FollowConcat(b: Option<Bracket>, x: seq<Event>, y: seq<Event>)
    ensures Follow(b, x + y) == Follow(Follow(b, x), y)
  {
    if y == [] {
      assert x + y == x;
    } else {
      assert (x + y)[..|x + y| - 1] == x + y[..|y| - 1];
      FollowConcat(b, x, y[..|y| - 1]);
    }
  }

  lemma FollowOne(b: Bracket, ev: Event)
    ensures Follow(Some(b), [ev]) == Accept(b, ev)
  {
    assert [ev][..0] == [];
    assert Follow(Some(b), []) == Some(b);
  }

  lemma FollowTwo(b: Bracket, x: Event, y: Event)
    ensures Follow(Some(b), [x, y]) == match Accept(b, x) case None => None case Some(c) => Accept(c, y)
  {
    assert [x, y] == [x] + [y];
    FollowConcat(Some(b), [x], [y]);
    FollowOne(b, x);
    if Accept(b, x).Some? { FollowOne(Accept(b, x).value, y); }
  }

  // ----- the decoder keeps to the brackets -----

  /** Where an observer of the events so far stands. */
  function Seen(d: State, texts: set<int>): Bracket {
    Bracket(if d.started then Streaming else Before, d.current, d.nextIndex, texts)
  }

  ghost predicate Sound(d: State, texts: set<int>) {
    && !d.done && (!d.started ==> d.current.None?)
    && (d.sawText ==> d.textIndex in texts)
    && (d.current.Some? && d.current.value.kind == BlockText ==> d.current.value.index in texts)
  }

  /** `texts` after some more events. */
  function TextsAfter(texts: set<int>, evs: seq<Event>): set<int> {
    if evs == [] then texts
    else
      var front, ev := TextsAfter(texts, evs[..|evs| - 1]), evs[|evs| - 1];
      if ev.BlockStart? && ev.block.Some? && ev.block.value.kind == BlockText then front + {ev.index} else front
  }

  lemma {:induction false} TextsConcat(texts: set<int>, x: seq<Event>, y: seq<Event>)
    ensures TextsAfter(texts, x + y) == TextsAfter(TextsAfter(texts, x), y)
  {
    if y == [] {
      assert x + y == x;
    } else {
      assert (x + y)[..|x + y| - 1] == x + y[..|y| - 1];
      TextsConcat(texts, x, y[..|y| - 1]);
    }
  }

  /** The events of a step lead an observer from where it stood to where it should stand. */
  ghost predicate Leads(d: State, texts: set<int>, out: Out) {
    var texts' := TextsAfter(texts, out.events);
    Sound(out.next, texts') && Follow(Some(Seen(d, texts)), out.events) == Some(Seen(out.next, texts'))
  }

  lemma LeadsOn(d: State, texts: set<int>, a: Out, b: Out)
    requires Leads(d, texts, a) && Leads(a.next, TextsAfter(texts, a.events), b)
    ensures Leads(d, texts, Out(b.next, a.events + b.events))
  {
    FollowConcat(Some(Seen(d, texts)), a.events, b.events);
    TextsConcat(texts, a.events, b.events);
  }

  lemma StandStill(d: State, d': State, texts: set<int>)
    requires Sound(d, texts) && Sound(d', texts) && Seen(d, texts) == Seen(d', texts)
    ensures Leads(d, texts, Out(d', []))
  {}

  lemma OneEvent(d: State, d': State, texts: set<int>, ev: Event)
    requires Sound(d, texts) && !ev.BlockStart? && Sound(d', texts)
    requires Accept(Seen(d, texts), ev) == Some(Seen(d', texts))
    ensures Leads(d, texts, Out(d', [ev]))
  {
    FollowOne(Seen(d, texts), ev);
    assert [ev][..0] == [];
    assert TextsAfter(texts, []) == texts;
  }

  lemma CloseLeads(d: State, texts: set<int>)
    requires Sound(d, texts) && d.started
    ensures Leads(d, texts, CloseCurrent(d)) && CloseCurrent(d).next == d.(current := None)
    ensures TextsAfter(texts, CloseCurrent(d).events) == texts
  {
    if d.current.Some? {
      OneEvent(d, d.(current := None), texts, BlockStop(d.current.value.index));
      assert [BlockStop(d.current.value.index)][..0] == [];
    } else {
      StandStill(d, d, texts);
    }
  }

  lemma StartLeads(d: State, texts: set<int>, block: Block)
    requires Sound(d, texts) && d.started && d.current.None? && Startable(block)
    ensures var d' := d.(current := Some(OpenBlock(d.nextIndex, block.kind)), nextIndex := d.nextIndex + 1);
      && Leads(d, texts, Out(d', [BlockStart(d.nextIndex, Some(block))]))
      && TextsAfter(texts, [BlockStart(d.nextIndex, Some(block))])
         == if block.kind == BlockText then texts + {d.nextIndex} else texts
  {
    var ev := BlockStart(d.nextIndex, Some(block));
    FollowOne(Seen(d, texts), ev);
    assert [ev][..0] == [];
    assert TextsAfter(texts, []) == texts;
  }

  lemma SwitchLeads(d: State, texts: set<int>, kind: BlockKind)
    requires Sound(d, texts) && d.started && (kind == BlockText || kind == BlockThinking)
    ensures var out := SwitchTo(d, kind);
      && Leads(d, texts, out) && out.next.started && out.next.emitted == d.emitted
      && out.next.current.Some? && out.next.current.value.kind == kind
  {
    if d.current.Some? && d.current.value.kind == kind {
      StandStill(d, d, texts);
    } else {
      var closed := CloseCurrent(d);
      CloseLeads(d, texts);
      StartLeads(closed.next, texts, BlockOf(kind));
      var begun := Out(closed.next.(current := Some(OpenBlock(d.nextIndex, kind)), nextIndex := d.nextIndex + 1),
                       [BlockStart(d.nextIndex, Some(BlockOf(kind)))]);
      LeadsOn(d, texts, closed, begun);
    }
  }

  /** One more event that starts no block. */
  lemma OneMore(d: State, texts: set<int>, a: Out, d': State, ev: Event)
    requires Leads(d, texts, a) && !ev.BlockStart?
    requires var texts' := TextsAfter(texts, a.events);
      Sound(d', texts') && Accept(Seen(a.next, texts'), ev) == Some(Seen(d', texts'))
    ensures Leads(d, texts, Out(d', a.events + [ev]))
    ensures TextsAfter(texts, a.events + [ev]) == TextsAfter(texts, a.events)
  {
    OneEvent(a.next, d', TextsAfter(texts, a.events), ev);
    LeadsOn(d, texts, a, Out(d', [ev]));
    assert (a.events + [ev])[..|a.events|] == a.events;
  }

  lemma CallLeads(d: State, texts: set<int>, call: Call, signature: string, synth: SynthId)
    requires Sound(d, texts) && d.started
    ensures Leads(d, texts, EmitCall(d, call, signature, synth))
  {
    var i, closed, out := d.nextIndex, CloseCurrent(d), EmitCall(d, call, signature, synth);
    var block := EmptyBlock(BlockToolUse).(toolUse := Some(UseOf(d, call, signature, synth)));
    var start, input, stop := BlockStart(i, Some(block)), ToolInput(i, call.args), BlockStop(i);
    CloseLeads(d, texts);
    StartLeads(closed.next, texts, block);
    var inside := closed.next.(current := Some(OpenBlock(i, BlockToolUse)), nextIndex := i + 1);
    LeadsOn(d, texts, closed, Out(inside, [start]));
    TextsConcat(texts, closed.events, [start]);
    var begun := Out(inside, closed.events + [start]);
    OneMore(d, texts, begun, inside, input);
    OneMore(d, texts, Out(inside, begun.events + [input]), out.next, stop);
    assert out.events == begun.events + [input] + [stop];
  }

  lemma ThoughtLeads(d: State, texts: set<int>, p: Part)
    requires Sound(d, texts) && d.started
    ensures Leads(d, texts, DecodeThought(d, p))
  {
    var switched := SwitchTo(d, BlockThinking);
    SwitchLeads(d, texts, BlockThinking);
    var s, i, text := switched.next, switched.next.current.value.index, StripNul(p.text);
    var texts' := TextsAfter(texts, switched.events);
    var delta, sig := ThinkingDelta(i, text), SigDelta(i, p.signature, NAME);
    var deltas := if text != "" then [delta] else [];
    var sigs := if p.signature != "" then [sig] else [];
    MaybeOne(s, texts', text != "", delta);
    LeadsOn(d, texts, switched, Out(s, deltas));
    MaybeOne(s, TextsAfter(texts, switched.events + deltas), p.signature != "", sig);
    LeadsOn(d, texts, Out(s, switched.events + deltas), Out(s, sigs));
  }

  lemma MaybeOne(d: State, texts: set<int>, said: bool, ev: Event)
    requires Sound(d, texts) && !ev.BlockStart? && Accept(Seen(d, texts), ev) == Some(Seen(d, texts))
    ensures Leads(d, texts, Out(d, if said then [ev] else []))
  {
    if said { OneEvent(d, d, texts, ev); } else { StandStill(d, d, texts); }
  }

  lemma TextLeads(d: State, texts: set<int>, p: Part)
    requires Sound(d, texts) && d.started
    ensures Leads(d, texts, DecodeText(d, p))
  {
    var added := Added(d.emitted, StripNul(p.text));
    if StripNul(p.text) == "" || added == "" {
      StandStill(d, d, texts);
    } else {
      var e := d.(emitted := d.emitted + added);
      var switched := SwitchTo(e, BlockText);
      SwitchLeads(e, texts, BlockText);
      assert Leads(d, texts, switched);
      var s, i := switched.next, switched.next.current.value.index;
      OneEvent(s, s.(textIndex := i, sawText := true), TextsAfter(texts, switched.events), TextDelta(i, added));
      LeadsOn(d, texts, switched, Out(s.(textIndex := i, sawText := true), [TextDelta(i, added)]));
    }
  }

  lemma {:induction false} PartsLead(d: State, texts: set<int>, parts: seq<Part>, synth: SynthId)
    requires Sound(d, texts) && d.started
    ensures Leads(d, texts, DecodeParts(d, parts, synth)) && DecodeParts(d, parts, synth).next.started
  {
    if parts == [] {
      StandStill(d, d, texts);
    } else {
      var front, p := DecodeParts(d, parts[..|parts| - 1], synth), parts[|parts| - 1];
      PartsLead(d, texts, parts[..|parts| - 1], synth);
      var texts' := TextsAfter(texts, front.events);
      if p.call.Some? {
        CallLeads(front.next, texts', p.call.value, p.signature, synth);
      } else if p.thought {
        ThoughtLeads(front.next, texts', p);
      } else if p.text != "" {
        TextLeads(front.next, texts', p);
      } else {
        StandStill(front.next, front.next, texts');
      }
      LeadsOn(d, texts, front, DecodePart(front.next, p, synth));
    }
  }

  lemma CandidateLeads(d: State, texts: set<int>, c: Candidate, synth: SynthId)
    requires Sound(d, texts) && d.started
    ensures Leads(d, texts, DecodeCandidate(d, c, synth)) && DecodeCandidate(d, c, synth).next.started
  {
    if c.index != 0 {
      StandStill(d, d, texts);
    } else {
      var parts, out := DecodeParts(d, c.parts, synth), DecodeCandidate(d, c, synth);
      PartsLead(d, texts, c.parts, synth);
      var texts' := TextsAfter(texts, parts.events);
      if c.citations != [] && parts.next.sawText {
        var ev := CitationDelta(parts.next.textIndex, c.citations);
        OneEvent(parts.next, out.next, texts', ev);
        LeadsOn(d, texts, parts, Out(out.next, [ev]));
      } else {
        StandStill(parts.next, out.next, texts');
        LeadsOn(d, texts, parts, Out(out.next, []));
      }
    }
  }

  lemma {:induction false} CandidatesLead(d: State, texts: set<int>, cs: seq<Candidate>, synth: SynthId)
    requires Sound(d, texts) && d.started
    ensures Leads(d, texts, DecodeCandidates(d, cs, synth)) && DecodeCandidates(d, cs, synth).next.started
  {
    if cs == [] {
      StandStill(d, d, texts);
    } else {
      var front := DecodeCandidates(d, cs[..|cs| - 1], synth);
      CandidatesLead(d, texts, cs[..|cs| - 1], synth);
      CandidateLeads(front.next, TextsAfter(texts, front.events), cs[|cs| - 1], synth);
      LeadsOn(d, texts, front, DecodeCandidate(front.next, cs[|cs| - 1], synth));
    }
  }

  lemma FrameLeads(d: State, texts: set<int>, f: WireFrame, synth: SynthId)
    requires Sound(d, texts)
    ensures Leads(d, texts, FeedOne(d, f, synth))
    ensures FeedOne(d, f, synth).next.started <==> d.started || f.ResponseFrame?
  {
    if f.ErrorFrame? {
      OneEvent(d, d, texts, StreamError(f.message));
    } else {
      var e := if f.responseId != "" then d.(messageId := f.responseId) else d;
      var begun := Start(e, f.model);
      if d.started { StandStill(e, e, texts); } else { OneEvent(e, begun.next, texts, begun.events[0]); }
      assert Seen(d, texts) == Seen(e, texts);
      assert Leads(d, texts, begun);
      var texts', heeded := TextsAfter(texts, begun.events), Heed(begun.next, f);
      CandidatesLead(heeded, texts', f.candidates, synth);
      var decoded := DecodeCandidates(heeded, f.candidates, synth);
      assert Seen(begun.next, texts') == Seen(heeded, texts');
      LeadsOn(d, texts, begun, decoded);
    }
  }

  lemma {:induction false} FramesLead(fs: seq<WireFrame>, synth: SynthId)
    ensures var out := FeedAll(FRESH, fs, synth);
      && Leads(FRESH, {}, out)
      && (out.next.started <==> exists k :: 0 <= k < |fs| && fs[k].ResponseFrame?)
  {
    if fs == [] {
      StandStill(FRESH, FRESH, {});
    } else {
      var front := fs[..|fs| - 1];
      FramesLead(front, synth);
      var out := FeedAll(FRESH, front, synth);
      FrameLeads(out.next, TextsAfter({}, out.events), fs[|fs| - 1], synth);
      LeadsOn(FRESH, {}, out, FeedOne(out.next, fs[|fs| - 1], synth));
      if exists k :: 0 <= k < |front| && front[k].ResponseFrame? {
        var k :| 0 <= k < |front| && front[k].ResponseFrame?;
        assert fs[k].ResponseFrame?;
      }
    }
  }

  /** The events of a whole upstream stream, with the terminators added at its end. */
  function WholeStream(fs: seq<WireFrame>, synth: SynthId): seq<Event> {
    var out := FeedAll(FRESH, fs, synth);
    out.events + Finish(out.next).events
  }

  lemma FinishFollows(d: State, texts: set<int>)
    requires Sound(d, texts) && d.started
    ensures var end := Follow(Some(Seen(d, texts)), Finish(d).events);
      end.Some? && end.value.phase == Ended && end.value.current.None?
  {
    CloseLeads(d, texts);
    var delta := MessageDelta(FinalReason(d), "", None, NO_RECEIPTS.(serviceTier := d.tier), d.usage);
    var closing := CloseCurrent(d).events;
    assert Finish(d).events == closing + [delta, MessageStop];
    FollowConcat(Some(Seen(d, texts)), closing, [delta, MessageStop]);
    FollowTwo(Seen(d.(current := None), texts), delta, MessageStop);
  }

  /** For all frames of which one is not an error: the events form exactly one message, with
      blocks 0, 1, 2, ... one after the other, each delta inside a block of its kind, and the
      terminators last. */
  lemma StreamsAreBracketed(fs: seq<WireFrame>, synth: SynthId)
    requires exists k :: 0 <= k < |fs| && fs[k].ResponseFrame?
    ensures var end := Follow(Some(NEW_BRACKET), WholeStream(fs, synth));
      end.Some? && end.value.phase == Ended && end.value.current.None?
  {
    var out := FeedAll(FRESH, fs, synth);
    FramesLead(fs, synth);
    FollowConcat(Some(NEW_BRACKET), out.events, Finish(out.next).events);
    assert Seen(FRESH, {}) == NEW_BRACKET;
    FinishFollows(out.next, TextsAfter({}, out.events));
  }

  // ----- the text -----

  function TextOf(evs: seq<Event>): string {
    if evs == [] then ""
    else TextOf(evs[..|evs| - 1]) + (if evs[|evs| - 1].TextDelta? then evs[|evs| - 1].text else "")
  }

  lemma {:induction false} TextConcat(x: seq<Event>, y: seq<Event>)
    ensures TextOf(x + y) == TextOf(x) + TextOf(y)
  {
    if y == [] {
      assert x + y == x;
    } else {
      assert (x + y)[..|x + y| - 1] == x + y[..|y| - 1];
      TextConcat(x, y[..|y| - 1]);
    }
  }

  lemma {:induction false} NoText(evs: seq<Event>)
    requires forall k :: 0 <= k < |evs| ==> !evs[k].TextDelta?
    ensures TextOf(evs) == ""
  {
    if evs == [] {
    } else {
      NoText(evs[..|evs| - 1]);
    }
  }

  /** The text parts of a candidate list that reach the decoder, in order. */
  function PartTexts(parts: seq<Part>): seq<string> {
    if parts == [] then []
    else
      var p := parts[|parts| - 1];
      PartTexts(parts[..|parts| - 1]) + PartText(p)
  }

  function CandidateTexts(cs: seq<Candidate>): seq<string> {
    if cs == [] then []
    else CandidateTexts(cs[..|cs| - 1]) + (if cs[|cs| - 1].index == 0 then PartTexts(cs[|cs| - 1].parts) else [])
  }

  function Texts(fs: seq<WireFrame>): seq<string> {
    if fs == [] then []
    else Texts(fs[..|fs| - 1]) + (if fs[|fs| - 1].ResponseFrame? then CandidateTexts(fs[|fs| - 1].candidates) else [])
  }

  /** The decoder's whole treatment of text: one running text, extended part by part. */
  function Running(emitted: string, texts: seq<string>): string {
    if texts == [] then emitted
    else
      var front := Running(emitted, texts[..|texts| - 1]);
      front + Added(front, texts[|texts| - 1])
  }

  lemma {:induction false} RunningConcat(emitted: string, x: seq<string>, y: seq<string>)
    ensures Running(emitted, x + y) == Running(Running(emitted, x), y)
  {
    if y == [] {
      assert x + y == x;
    } else {
      assert (x + y)[..|x + y| - 1] == x + y[..|y| - 1];
      RunningConcat(emitted, x, y[..|y| - 1]);
    }
  }

  /** A step says exactly what the parts `texts` add to the running text. */
  ghost predicate Speaks(d: State, out: Out, texts: seq<string>) {
    out.next.emitted == Running(d.emitted, texts) && d.emitted + TextOf(out.events) == out.next.emitted
  }

  lemma SpeaksOn(d: State, a: Out, x: seq<string>, b: Out, y: seq<string>)
    requires Speaks(d, a, x) && Speaks(a.next, b, y)
    ensures Speaks(d, Out(b.next, a.events + b.events), x + y)
  {
    RunningConcat(d.emitted, x, y);
    TextConcat(a.events, b.events);
    Associate(d.emitted, TextOf(a.events), TextOf(b.events));
  }

  lemma SaysNothing(d: State, out: Out)
    requires out.next.emitted == d.emitted && forall k :: 0 <= k < |out.events| ==> !out.events[k].TextDelta?
    ensures Speaks(d, out, [])
  {
    NoText(out.events);
  }

  lemma TextSpeaks(d: State, p: Part)
    requires StripNul(p.text) != ""
    ensures Speaks(d, DecodeText(d, p), [StripNul(p.text)])
  {
    var text := StripNul(p.text);
    var added := Added(d.emitted, text);
    assert [text][..0] == [] && Running(d.emitted, []) == d.emitted;
    assert Running(d.emitted, [text]) == d.emitted + added;
    assert d.emitted + "" == d.emitted;
    if added != "" {
      var switched := SwitchTo(d.(emitted := d.emitted + added), BlockText);
      var delta := TextDelta(switched.next.current.value.index, added);
      NoText(switched.events);
      TextConcat(switched.events, [delta]);
      assert [delta][..0] == [] && TextOf([delta]) == added;
    }
  }

  function PartText(p: Part): seq<string> {
    if p.call.None? && !p.thought && StripNul(p.text) != "" then [StripNul(p.text)] else []
  }

  lemma PartSpeaks(d: State, p: Part, synth: SynthId)
    ensures Speaks(d, DecodePart(d, p, synth), PartText(p))
  {
    if PartText(p) != [] {
      TextSpeaks(d, p);
    } else {
      SilentPart(d, p, synth);
      SaysNothing(d, DecodePart(d, p, synth));
    }
  }

  lemma SilentPart(d: State, p: Part, synth: SynthId)
    requires PartText(p) == []
    ensures var out := DecodePart(d, p, synth);
      out.next.emitted == d.emitted && forall k :: 0 <= k < |out.events| ==> !out.events[k].TextDelta?
  {}

  lemma {:induction false} PartsSpeak(d: State, parts: seq<Part>, synth: SynthId)
    ensures Speaks(d, DecodeParts(d, parts, synth), PartTexts(parts))
  {
    if parts == [] {
      SaysNothing(d, Out(d, []));
    } else {
      var front, p := parts[..|parts| - 1], parts[|parts| - 1];
      var mid := DecodeParts(d, front, synth);
      PartsSpeak(d, front, synth);
      PartSpeaks(mid.next, p, synth);
      SpeaksOn(d, mid, PartTexts(front), DecodePart(mid.next, p, synth), PartText(p));
    }
  }

  lemma CandidateSpeaks(d: State, c: Candidate, synth: SynthId)
    ensures Speaks(d, DecodeCandidate(d, c, synth), if c.index == 0 then PartTexts(c.parts) else [])
  {
    var out := DecodeCandidate(d, c, synth);
    if c.index != 0 {
      SaysNothing(d, out);
    } else {
      var parts := DecodeParts(d, c.parts, synth);
      var cited := Out(out.next, out.events[|parts.events|..]);
      PartsSpeak(d, c.parts, synth);
      SaysNothing(parts.next, cited);
      SpeaksOn(d, parts, PartTexts(c.parts), cited, []);
      assert out.events == parts.events + cited.events && PartTexts(c.parts) + [] == PartTexts(c.parts);
    }
  }

  lemma {:induction false} CandidatesSpeak(d: State, cs: seq<Candidate>, synth: SynthId)
    ensures Speaks(d, DecodeCandidates(d, cs, synth), CandidateTexts(cs))
  {
    if cs == [] {
      SaysNothing(d, Out(d, []));
    } else {
      var front, c := cs[..|cs| - 1], cs[|cs| - 1];
      var mid := DecodeCandidates(d, front, synth);
      CandidatesSpeak(d, front, synth);
      CandidateSpeaks(mid.next, c, synth);
      SpeaksOn(d, mid, CandidateTexts(front), DecodeCandidate(mid.next, c, synth),
               if c.index == 0 then PartTexts(c.parts) else []);
    }
  }

  lemma FrameSpeaks(d: State, f: WireFrame, synth: SynthId)
    ensures Speaks(d, FeedOne(d, f, synth), if f.ResponseFrame? then CandidateTexts(f.candidates) else [])
  {
    if f.ErrorFrame? {
      SaysNothing(d, FeedOne(d, f, synth));
    } else {
      var begun := Start(if f.responseId != "" then d.(messageId := f.responseId) else d, f.model);
      var heeded := Out(Heed(begun.next, f), begun.events);
      SaysNothing(d, heeded);
      CandidatesSpeak(heeded.next, f.candidates, synth);
      SpeaksOn(d, heeded, [], DecodeCandidates(heeded.next, f.candidates, synth), CandidateTexts(f.candidates));
      assert [] + CandidateTexts(f.candidates) == CandidateTexts(f.candidates);
    }
  }

  lemma {:induction false} FramesSpeak(fs: seq<WireFrame>, synth: SynthId)
    ensures Speaks(FRESH, FeedAll(FRESH, fs, synth), Texts(fs))
  {
    if fs == [] {
      SaysNothing(FRESH, Out(FRESH, []));
    } else {
      var front, f := fs[..|fs| - 1], fs[|fs| - 1];
      var mid := FeedAll(FRESH, front, synth);
      FramesSpeak(front, synth);
      FrameSpeaks(mid.next, f, synth);
      SpeaksOn(FRESH, mid, Texts(front), FeedOne(mid.next, f, synth),
               if f.ResponseFrame? then CandidateTexts(f.candidates) else []);
    }
  }

  /** Every two parts agree as far as both go: the upstream resends its text from the start. */
  predicate Cumulative(texts: seq<string>) {
    forall i, j :: 0 <= i < |texts| && 0 <= j < |texts| ==> texts[i] <= texts[j] || texts[j] <= texts[i]
  }

  function Longest(texts: seq<string>): string {
    if texts == [] then ""
    else
      var front, last := Longest(texts[..|texts| - 1]), texts[|texts| - 1];
      if |last| > |front| then last else front
  }

  lemma {:induction false} LongestIsOne(texts: seq<string>)
    ensures texts == [] ==> Longest(texts) == ""
    ensures Longest(texts) == "" || Longest(texts) in texts
    ensures forall t :: t in texts ==> |t| <= |Longest(texts)|
  {
    if texts == [] {
    } else {
      LongestIsOne(texts[..|texts| - 1]);
      assert texts == texts[..|texts| - 1] + [texts[|texts| - 1]];
    }
  }

  lemma {:induction false} RunningIsLongest(texts: seq<string>)
    requires Cumulative(texts)
    ensures Running("", texts) == Longest(texts)
  {
    if texts == [] {
    } else {
      var n := |texts| - 1;
      var front, last := texts[..n], texts[n];
      assert forall i :: 0 <= i < n ==> front[i] == texts[i];
      RunningIsLongest(front);
      LongestIsOne(front);
      var so := Longest(front);
      if so != "" {
        var i :| 0 <= i < n && front[i] == so;
        assert so <= last || last <= so by { assert texts[i] <= texts[n] || texts[n] <= texts[i]; }
      }
      AddedExtends(so, last);
    }
  }

  lemma AddedExtends(emitted: string, text: string)
    requires emitted == "" || emitted <= text || text <= emitted
    ensures emitted + Added(emitted, text) == if |text| > |emitted| then text else emitted
  {
    if emitted != "" && emitted <= text {
      assert emitted + text[|emitted|..] == text;
    }
    assert emitted + "" == emitted;
  }

  /** The text deltas are the running text, and when the upstream resends its text with every
      frame they amount to the longest version, once. */
  lemma TextArrivesOnce(fs: seq<WireFrame>, synth: SynthId)
    ensures TextOf(WholeStream(fs, synth)) == Running("", Texts(fs))
    ensures Cumulative(Texts(fs)) ==> TextOf(WholeStream(fs, synth)) == Longest(Texts(fs))
  {
    var out := FeedAll(FRESH, fs, synth);
    FramesSpeak(fs, synth);
    SaysNothing(out.next, Finish(out.next));
    SpeaksOn(FRESH, out, Texts(fs), Finish(out.next), []);
    assert Texts(fs) + [] == Texts(fs);
    assert "" + TextOf(WholeStream(fs, synth)) == TextOf(WholeStream(fs, synth));
    if Cumulative(Texts(fs)) { RunningIsLongest(Texts(fs)); }
  }

  // ----- on to the client -----

  /** The encoder has opened what the decoder opened. */
  ghost predicate InStep(s: Anthropic.State, b: Bracket) {
    && !s.errored && (s.stopped <==> b.phase == Ended)
    && (s.started <==> b.phase != Before) && (s.sentDelta <==> b.phase == Ending || b.phase == Ended)
    && (b.phase != Streaming ==> b.current.None?)
    && s.open == (if b.current.Some? then {b.current.value.index as int} else {})
    && forall i :: i in s.order ==> 0 <= i < b.next
  }

  lemma {:induction false} ClosingNothing(s: Anthropic.State, order: seq<int>)
    requires s.open == {}
    ensures Anthropic.CloseEach(s, order) == Anthropic.Step(s, [], false)
    decreases order
  {
    if order == [] {
    } else {
      ClosingNothing(s, order[1..]);
    }
  }

  lemma BracketedIsAdmissible(s: Anthropic.State, b: Bracket, ev: Event, fam: Anthropic.Family)
    requires InStep(s, b) && Accept(b, ev).Some?
    ensures Grammar.Admissible(s, ev, fam)
    ensures var s' := Anthropic.Encode(s, ev, fam).next; s'.errored || InStep(s', Accept(b, ev).value)
  {
    if ev.MessageDelta? || ev.MessageStop? {
      var begun := Anthropic.Start(s, "", "").next;
      ClosingNothing(begun, begun.order);
    }
  }

  lemma {:induction false} BracketedStreamsAdmissible(evs: seq<Event>, fam: Anthropic.Family)
    requires Follow(Some(NEW_BRACKET), evs).Some?
    ensures Grammar.AllAdmissible(Anthropic.FRESH, evs, fam)
    ensures var s := Grammar.EncodeAll(Anthropic.FRESH, evs, fam).next;
      s.errored || InStep(s, Follow(Some(NEW_BRACKET), evs).value)
  {
    if evs == [] {
    } else {
      var n := |evs| - 1;
      var front := evs[..n];
      BracketedStreamsAdmissible(front, fam);
      Grammar.AdmissiblePrefix(Anthropic.FRESH, evs, fam);
      var s := Grammar.EncodeAll(Anthropic.FRESH, front, fam).next;
      if !s.errored { BracketedIsAdmissible(s, Follow(Some(NEW_BRACKET), front).value, evs[n], fam); }
    }
  }

  lemma {:induction false} PrefixBracketed(evs: seq<Event>, n: nat)
    requires n <= |evs| && Follow(Some(NEW_BRACKET), evs).Some?
    ensures Follow(Some(NEW_BRACKET), evs[..n]).Some?
  {
    if n < |evs| {
      PrefixBracketed(evs[..|evs| - 1], n);
      assert evs[..|evs| - 1][..n] == evs[..n];
    } else {
      assert evs[..n] == evs;
    }
  }

  /** From Gemini to Anthropic: for all frames, cut off after any number of events, the
      client receives a complete stream. */
  lemma GeminiReachesTheClient(fs: seq<WireFrame>, synth: SynthId, fam: Anthropic.Family, n: nat)
    requires exists k :: 0 <= k < |fs| && fs[k].ResponseFrame?
    requires n <= |WholeStream(fs, synth)|
    ensures Grammar.Over(Grammar.Follow(Grammar.NEW_CLIENT, Grammar.Transcript(WholeStream(fs, synth)[..n], fam)))
  {
    var evs := WholeStream(fs, synth);
    StreamsAreBracketed(fs, synth);
    PrefixBracketed(evs, n);
    BracketedStreamsAdmissible(evs[..n], fam);
    Grammar.EveryStreamIsCompleted(evs[..n], fam);
  }
}
