/** What the Gemini decoder hands on, part by part, told from the frames alone:
    backend/codec/gemini/decode_stream.go. */
module GeminiVoices {
  import opened Ir
  import opened Seqs
  import opened GeminiStream
  import opened GeminiGrammar

  // ----- characters that never pass -----

  lemma {:induction false} StripConcat(a: string, b: string)
    ensures StripNul(a + b) == StripNul(a) + StripNul(b)
  {
    if b == "" {
      ConcatNothing(a);
      ConcatNothing(StripNul(a));
    } else {
      ConcatFront(a, b);
      StripConcat(a, b[..|b| - 1]);
      Associate(StripNul(a), StripNul(b[..|b| - 1]), if b[|b| - 1] == '\0' then "" else [b[|b| - 1]]);
    }
  }

  /** Stripping takes out the NULs and nothing else. */
  lemma {:induction false} OnlyNulsGo(s: string)
    ensures StripNul(s) == s <==> '\0' !in s
    ensures (forall i :: 0 <= i < |s| ==> s[i] == '\0') ==> StripNul(s) == ""
    ensures forall c :: c != '\0' ==> multiset(StripNul(s))[c] == multiset(s)[c]
  {
    if s == "" {
    } else {
      var n := |s| - 1;
      OnlyNulsGo(s[..n]);
      FrontLast(s);
    }
  }

  // ----- the running text of an upstream that does not repeat itself -----

  function Joined(texts: seq<string>): string {
    if texts == [] then "" else Joined(texts[..|texts| - 1]) + texts[|texts| - 1]
  }

  /** No piece starts with all of the text before it, and none is a beginning of that text. */
  predicate Incremental(texts: seq<string>) {
    forall k :: 0 <= k < |texts| ==>
      var before := Joined(texts[..k]);
      before == "" || (!(before <= texts[k]) && !(texts[k] <= before))
  }

  /** An upstream that sends pieces has them joined, each once and whole. */
  lemma {:induction false} PiecesAreJoined(texts: seq<string>)
    requires Incremental(texts)
    ensures Running("", texts) == Joined(texts)
  {
    if texts == [] {
    } else {
      var n := |texts| - 1;
      var front := texts[..n];
      forall k | 0 <= k < n ensures front[..k] == texts[..k] {}
      PiecesAreJoined(front);
      var before := Joined(front);
      assert before == "" || (!(before <= texts[n]) && !(texts[n] <= before));
      if before == "" && texts[n] == "" { ConcatNothing(before); }
    }
  }

  // ----- reasoning, signatures, calls and citations -----

  datatype Voice =
    | Thought(text: string)
    | Signed(signature: string, from: string)
    | Called(use: ToolUse, input: string)
    | Cited(citations: seq<Citation>)

  /** What is said apart from the text.  A call is said when its input comes. */
  function VoicesOf(evs: seq<Event>): seq<Voice> {
    if evs == [] then []
    else
      var front, ev := VoicesOf(evs[..|evs| - 1]), evs[|evs| - 1];
      match ev
      case ThinkingDelta(_, text) => front + [Thought(text)]
      case SigDelta(_, text, from) => front + [Signed(text, from)]
      case ToolInput(i, input) => front + [Called(UseAt(evs[..|evs| - 1], i), input)]
      case CitationDelta(_, cs) => front + [Cited(cs)]
      case _ => front
  }

  /** The call that block `i` was last started with. */
  function UseAt(evs: seq<Event>, i: int): ToolUse {
    if evs == [] then NO_TOOL_USE
    else
      var ev := evs[|evs| - 1];
      if ev.BlockStart? && ev.index == i && ev.block.Some? && ev.block.value.toolUse.Some?
      then ev.block.value.toolUse.value else UseAt(evs[..|evs| - 1], i)
  }

  lemma {:induction false} UseAtConcat(a: seq<Event>, b: seq<Event>, i: int)
    requires exists k :: 0 <= k < |b| && StartsUse(b[k], i)
    ensures UseAt(a + b, i) == UseAt(b, i)
  {
    var n := |b| - 1;
    ConcatFront(a, b);
    if !StartsUse(b[n], i) {
      var k :| 0 <= k < |b| && StartsUse(b[k], i);
      assert StartsUse(b[..n][k], i);
      UseAtConcat(a, b[..n], i);
    }
  }

  predicate StartsUse(ev: Event, i: int) {
    ev.BlockStart? && ev.index == i && ev.block.Some? && ev.block.value.toolUse.Some?
  }

  /** Each input of a step follows the start of its call within the step. */
  ghost predicate Contained(evs: seq<Event>) {
    forall k :: 0 <= k < |evs| && evs[k].ToolInput? ==>
      exists j :: 0 <= j < k && StartsUse(evs[j], evs[k].index)
  }

  lemma {:induction false} VoicesConcat(a: seq<Event>, b: seq<Event>)
    requires Contained(b)
    ensures VoicesOf(a + b) == VoicesOf(a) + VoicesOf(b)
  {
    if b == [] {
      ConcatNothing(a);
      ConcatNothing(VoicesOf(a));
    } else {
      var n := |b| - 1;
      ConcatFront(a, b);
      ContainedFront(b);
      VoicesConcat(a, b[..n]);
      if b[n].ToolInput? {
        var j :| 0 <= j < n && StartsUse(b[j], b[n].index);
        assert StartsUse(b[..n][j], b[n].index);
        UseAtConcat(a, b[..n], b[n].index);
      }
    }
  }

  lemma ContainedFront(b: seq<Event>)
    requires b != [] && Contained(b)
    ensures Contained(b[..|b| - 1])
  {
    var front := b[..|b| - 1];
    forall k | 0 <= k < |front| && front[k].ToolInput? ensures exists j :: 0 <= j < k && StartsUse(front[j], front[k].index) {
      assert b[k].ToolInput?;
      var j :| 0 <= j < k && StartsUse(b[j], b[k].index);
      assert StartsUse(front[j], front[k].index);
    }
  }

  lemma ContainedConcat(a: seq<Event>, b: seq<Event>)
    requires Contained(a) && Contained(b)
    ensures Contained(a + b)
  {
    var evs := a + b;
    forall k | 0 <= k < |evs| && evs[k].ToolInput? ensures exists j :: 0 <= j < k && StartsUse(evs[j], evs[k].index) {
      if k < |a| {
        var j :| 0 <= j < k && StartsUse(a[j], a[k].index);
        assert StartsUse(evs[j], evs[k].index);
      } else {
        assert b[k - |a|].ToolInput?;
        var j :| 0 <= j < k - |a| && StartsUse(b[j], b[k - |a|].index);
        assert StartsUse(evs[|a| + j], evs[k].index);
      }
    }
  }

  lemma {:induction false} Voiceless(evs: seq<Event>)
    requires forall ev :: ev in evs ==> !ev.ThinkingDelta? && !ev.SigDelta? && !ev.ToolInput? && !ev.CitationDelta?
    ensures VoicesOf(evs) == [] && Contained(evs)
  {
    if evs == [] {
    } else {
      Voiceless(evs[..|evs| - 1]);
    }
  }

  /** What the decoder goes by: the message id, the calls named so far, the running text. */
  datatype Tally = Tally(messageId: string, named: nat, emitted: string)

  /** The call a part makes.  One without an id gets an id of its own, made from the message and a
      number that no other call of the stream has. */
  function UseFor(t: Tally, call: Call, signature: string, synth: SynthId): ToolUse {
    ToolUse(if call.id != "" then call.id else synth(t.messageId, call.name, t.named + 1),
            call.name, ToolFunction, "", "", signature, if signature != "" then "gemini" else "", "")
  }

  function PartVoices(t: Tally, p: Part, synth: SynthId): seq<Voice> {
    if p.call.Some? then [Called(UseFor(t, p.call.value, p.signature, synth), p.call.value.args)]
    else if p.thought then
      (if StripNul(p.text) != "" then [Thought(StripNul(p.text))] else [])
      + (if p.signature != "" then [Signed(p.signature, "gemini")] else [])
    else []
  }

  function AfterPart(t: Tally, p: Part): Tally {
    if p.call.Some? then if p.call.value.id == "" then t.(named := t.named + 1) else t
    else t.(emitted := Running(t.emitted, PartText(p)))
  }

  /** The voices of a list of parts, and the tally behind them. */
  function PartsVoices(t: Tally, parts: seq<Part>, synth: SynthId): (Tally, seq<Voice>) {
    if parts == [] then (t, [])
    else
      var (mid, front) := PartsVoices(t, parts[..|parts| - 1], synth);
      (AfterPart(mid, parts[|parts| - 1]), front + PartVoices(mid, parts[|parts| - 1], synth))
  }

  /** Citations come behind the parts they belong to, once there is text to cite from. */
  function CandidatesVoices(t: Tally, cs: seq<Candidate>, synth: SynthId): (Tally, seq<Voice>) {
    if cs == [] then (t, [])
    else
      var (mid, front) := CandidatesVoices(t, cs[..|cs| - 1], synth);
      var c := cs[|cs| - 1];
      if c.index != 0 then (mid, front)
      else
        var (next, voices) := PartsVoices(mid, c.parts, synth);
        (next, front + voices + if c.citations != [] && next.emitted != "" then [Cited(c.citations)] else [])
  }

  function FramesVoices(fs: seq<WireFrame>, synth: SynthId): (Tally, seq<Voice>) {
    if fs == [] then (Tally("", 0, ""), [])
    else
      var (mid, front) := FramesVoices(fs[..|fs| - 1], synth);
      var f := fs[|fs| - 1];
      if f.ErrorFrame? then (mid, front)
      else
        var (next, voices) := CandidatesVoices(
          if f.responseId != "" then mid.(messageId := f.responseId) else mid, f.candidates, synth);
        (next, front + voices)
  }

  // ----- the decoder says them -----

  predicate Tallies(d: State, t: Tally) {
    && d.messageId == t.messageId && d.callCounter == t.named && d.emitted == t.emitted
    && (d.sawText <==> d.emitted != "")
  }

  ghost predicate SaysVoices(d: State, t: Tally, out: Out, next: Tally, voices: seq<Voice>) {
    Tallies(out.next, next) && Contained(out.events) && VoicesOf(out.events) == voices
  }

  lemma VoicesOne(ev: Event)
    requires !ev.ToolInput?
    ensures Contained([ev])
    ensures VoicesOf([ev]) == match ev
      case ThinkingDelta(_, text) => [Thought(text)]
      case SigDelta(_, text, from) => [Signed(text, from)]
      case CitationDelta(_, cs) => [Cited(cs)]
      case _ => []
  {
    assert [ev][..0] == [];
    assert VoicesOf([ev][..0]) == [];
  }

  lemma CallVoices(closing: seq<Event>, i: int, b: Block, input: string)
    requires b.toolUse.Some? && forall ev :: ev in closing ==> ev.BlockStop?
    ensures var evs := closing + [BlockStart(i, Some(b)), ToolInput(i, input), BlockStop(i)];
      Contained(evs) && VoicesOf(evs) == [Called(b.toolUse.value, input)]
  {
    var start, more, stop := BlockStart(i, Some(b)), ToolInput(i, input), BlockStop(i);
    var three := [start, more, stop];
    Voiceless(closing);
    assert three[..2] == [start, more] && three[..2][..1] == [start] && [start][..0] == [];
    assert VoicesOf([start]) == VoicesOf([start][..0]) == [];
    assert UseAt([start], i) == b.toolUse.value;
    assert VoicesOf([start, more]) == [] + [Called(b.toolUse.value, input)];
    assert VoicesOf(three) == VoicesOf(three[..2]);
    assert Contained(three) by { assert StartsUse(three[0], i); }
    VoicesConcat(closing, three);
    ContainedConcat(closing, three);
  }

  lemma SwitchVoices(d: State, kind: BlockKind)
    ensures var out := SwitchTo(d, kind);
      && VoicesOf(out.events) == [] && Contained(out.events)
      && out.next == d.(current := out.next.current, nextIndex := out.next.nextIndex)
  {
    Voiceless(SwitchTo(d, kind).events);
  }

  lemma MaybeVoice(said: bool, ev: Event, front: seq<Event>)
    requires !ev.ToolInput? && Contained(front)
    ensures var evs := front + (if said then [ev] else []);
      Contained(evs) && VoicesOf(evs) == VoicesOf(front) + if said then VoicesOf([ev]) else []
  {
    VoicesOne(ev);
    if said {
      VoicesConcat(front, [ev]);
      ContainedConcat(front, [ev]);
    } else {
      ConcatNothing(front);
      ConcatNothing(VoicesOf(front));
    }
  }

  lemma ThoughtVoices(d: State, t: Tally, p: Part, synth: SynthId)
    requires Tallies(d, t) && p.call.None? && p.thought
    ensures SaysVoices(d, t, DecodeThought(d, p), AfterPart(t, p), PartVoices(t, p, synth))
  {
    var switched := SwitchTo(d, BlockThinking);
    var i, text := switched.next.current.value.index, StripNul(p.text);
    SwitchVoices(d, BlockThinking);
    MaybeVoice(text != "", ThinkingDelta(i, text), switched.events);
    VoicesOne(ThinkingDelta(i, text));
    var front := switched.events + (if text != "" then [ThinkingDelta(i, text)] else []);
    MaybeVoice(p.signature != "", SigDelta(i, p.signature, "gemini"), front);
    VoicesOne(SigDelta(i, p.signature, "gemini"));
    ConcatNothing(if text != "" then [Thought(text)] else []);
  }

  lemma TextKeepsTally(d: State, t: Tally, p: Part)
    requires Tallies(d, t)
    ensures var next := DecodeText(d, p).next;
      && next.messageId == d.messageId && next.callCounter == d.callCounter && (next.sawText <==> next.emitted != "")
  {
    var added := Added(d.emitted, StripNul(p.text));
    if StripNul(p.text) != "" && added != "" {
      SwitchVoices(d.(emitted := d.emitted + added), BlockText);
      assert |d.emitted + added| > 0;
    }
  }

  lemma TextIsVoiceless(d: State, p: Part)
    ensures VoicesOf(DecodeText(d, p).events) == [] && Contained(DecodeText(d, p).events)
  {
    Voiceless(DecodeText(d, p).events);
  }

  lemma TextVoices(d: State, t: Tally, p: Part, synth: SynthId)
    requires Tallies(d, t) && p.call.None? && !p.thought
    ensures SaysVoices(d, t, DecodePart(d, p, synth), AfterPart(t, p), [])
  {
    PartSpeaks(d, p, synth);
    if p.text != "" {
      TextKeepsTally(d, t, p);
      TextIsVoiceless(d, p);
    }
  }

  lemma PartSaysVoices(d: State, t: Tally, p: Part, synth: SynthId)
    requires Tallies(d, t)
    ensures SaysVoices(d, t, DecodePart(d, p, synth), AfterPart(t, p), PartVoices(t, p, synth))
  {
    if p.call.Some? {
      var block := EmptyBlock(BlockToolUse).(toolUse := Some(UseOf(d, p.call.value, p.signature, synth)));
      CallVoices(CloseCurrent(d).events, d.nextIndex, block, p.call.value.args);
    } else if p.thought {
      ThoughtVoices(d, t, p, synth);
    } else {
      TextVoices(d, t, p, synth);
    }
  }

  lemma {:induction false} PartsSayVoices(d: State, t: Tally, parts: seq<Part>, synth: SynthId)
    requires Tallies(d, t)
    ensures var v := PartsVoices(t, parts, synth); SaysVoices(d, t, DecodeParts(d, parts, synth), v.0, v.1)
  {
    if parts == [] {
    } else {
      var front, p := parts[..|parts| - 1], parts[|parts| - 1];
      var mid, v := DecodeParts(d, front, synth), PartsVoices(t, front, synth);
      PartsSayVoices(d, t, front, synth);
      PartSaysVoices(mid.next, v.0, p, synth);
      VoicesConcat(mid.events, DecodePart(mid.next, p, synth).events);
      ContainedConcat(mid.events, DecodePart(mid.next, p, synth).events);
    }
  }

  lemma CandidateSaysVoices(d: State, t: Tally, c: Candidate, synth: SynthId)
    requires Tallies(d, t) && c.index == 0
    ensures var v := PartsVoices(t, c.parts, synth);
      SaysVoices(d, t, DecodeCandidate(d, c, synth), v.0,
                 v.1 + if c.citations != [] && v.0.emitted != "" then [Cited(c.citations)] else [])
  {
    var parts := DecodeParts(d, c.parts, synth);
    PartsSayVoices(d, t, c.parts, synth);
    MaybeVoice(c.citations != [] && parts.next.sawText, CitationDelta(parts.next.textIndex, c.citations), parts.events);
    VoicesOne(CitationDelta(parts.next.textIndex, c.citations));
  }

  lemma {:induction false} CandidatesSayVoices(d: State, t: Tally, cs: seq<Candidate>, synth: SynthId)
    requires Tallies(d, t)
    ensures var v := CandidatesVoices(t, cs, synth); SaysVoices(d, t, DecodeCandidates(d, cs, synth), v.0, v.1)
  {
    if cs == [] {
    } else {
      var front, c := cs[..|cs| - 1], cs[|cs| - 1];
      var mid, v := DecodeCandidates(d, front, synth), CandidatesVoices(t, front, synth);
      CandidatesSayVoices(d, t, front, synth);
      if c.index == 0 {
        CandidateSaysVoices(mid.next, v.0, c, synth);
        VoicesConcat(mid.events, DecodeCandidate(mid.next, c, synth).events);
        ContainedConcat(mid.events, DecodeCandidate(mid.next, c, synth).events);
        var w := PartsVoices(v.0, c.parts, synth);
        Associate(v.1, w.1, if c.citations != [] && w.0.emitted != "" then [Cited(c.citations)] else []);
      } else {
        ConcatNothing(mid.events);
      }
    }
  }

  lemma FrameSaysVoices(d: State, t: Tally, f: WireFrame, synth: SynthId)
    requires Tallies(d, t) && f.ResponseFrame?
    ensures var v := CandidatesVoices(if f.responseId != "" then t.(messageId := f.responseId) else t, f.candidates, synth);
      SaysVoices(d, t, FeedOne(d, f, synth), v.0, v.1)
  {
    var begun := Start(if f.responseId != "" then d.(messageId := f.responseId) else d, f.model);
    var heeded := Heed(begun.next, f);
    CandidatesSayVoices(heeded, if f.responseId != "" then t.(messageId := f.responseId) else t, f.candidates, synth);
    Voiceless(begun.events);
    VoicesConcat(begun.events, DecodeCandidates(heeded, f.candidates, synth).events);
    ContainedConcat(begun.events, DecodeCandidates(heeded, f.candidates, synth).events);
  }

  lemma {:induction false} FramesSayVoices(fs: seq<WireFrame>, synth: SynthId)
    ensures var v := FramesVoices(fs, synth); SaysVoices(FRESH, Tally("", 0, ""), FeedAll(FRESH, fs, synth), v.0, v.1)
  {
    if fs == [] {
    } else {
      var front, f := fs[..|fs| - 1], fs[|fs| - 1];
      var mid, v := FeedAll(FRESH, front, synth), FramesVoices(front, synth);
      FramesSayVoices(front, synth);
      if f.ErrorFrame? {
        Voiceless([StreamError(f.message)]);
        VoicesConcat(mid.events, [StreamError(f.message)]);
        ContainedConcat(mid.events, [StreamError(f.message)]);
      } else {
        FrameSaysVoices(mid.next, v.0, f, synth);
        VoicesConcat(mid.events, FeedOne(mid.next, f, synth).events);
        ContainedConcat(mid.events, FeedOne(mid.next, f, synth).events);
      }
    }
  }

  /** Reasoning, signatures, calls with their arguments, and citations are handed on as the parts of
      the first candidates gave them: all of them, in order, once, and nothing besides. */
  lemma EveryPartIsHandedOn(fs: seq<WireFrame>, synth: SynthId)
    ensures VoicesOf(WholeStream(fs, synth)) == FramesVoices(fs, synth).1
  {
    var out := FeedAll(FRESH, fs, synth);
    FramesSayVoices(fs, synth);
    Voiceless(Finish(out.next).events);
    VoicesConcat(out.events, Finish(out.next).events);
    ConcatNothing(VoicesOf(out.events));
  }
}
