/** How the Gemini decoder opens and ends a message, and what becomes of its text on the way to an
    Anthropic client, told from the frames alone: backend/codec/gemini/decode_stream.go. */
module GeminiMessage {
  import opened Ir
  import opened Seqs
  import opened GeminiStream
  import opened GeminiGrammar
  import opened GeminiVoices
  import Aggregate
  import Reported
  import Anthropic = AnthropicStream
  import Grammar = AnthropicGrammar
  import Words = AnthropicWords

  // ----- how the message opens and ends -----

  /** The events that open or end a message. */
  function Terminals(evs: seq<Event>): seq<Event> {
    if evs == [] then []
    else
      var front, ev := Terminals(evs[..|evs| - 1]), evs[|evs| - 1];
      if ev.MessageStart? || ev.MessageDelta? || ev.MessageStop? then front + [ev] else front
  }

  lemma {:induction false} TerminalsConcat(a: seq<Event>, b: seq<Event>)
    ensures Terminals(a + b) == Terminals(a) + Terminals(b)
  {
    if b == [] {
      ConcatNothing(a);
      ConcatNothing(Terminals(a));
    } else {
      ConcatFront(a, b);
      TerminalsConcat(a, b[..|b| - 1]);
    }
  }

  lemma {:induction false} NoTerminals(evs: seq<Event>)
    requires forall ev :: ev in evs ==> !ev.MessageStart? && !ev.MessageDelta? && !ev.MessageStop?
    ensures Terminals(evs) == []
  {
    if evs == [] {
    } else {
      NoTerminals(evs[..|evs| - 1]);
    }
  }

  lemma {:induction false} AllTerminals(evs: seq<Event>)
    requires forall ev :: ev in evs ==> ev.MessageStart? || ev.MessageDelta? || ev.MessageStop?
    ensures Terminals(evs) == evs
  {
    if evs == [] {
    } else {
      AllTerminals(evs[..|evs| - 1]);
      FrontLast(evs);
    }
  }

  function FinishesOf(cs: seq<Candidate>): seq<StopReason> {
    if cs == [] then []
    else
      var front, c := FinishesOf(cs[..|cs| - 1]), cs[|cs| - 1];
      if c.index == 0 && c.finish.Some? then front + [c.finish.value] else front
  }

  /** The stop reasons told, in order: a blocked prompt counts as filtered before the candidates of
      its frame are read. */
  function ReasonsOf(fs: seq<WireFrame>): seq<StopReason> {
    if fs == [] then []
    else
      var front, f := ReasonsOf(fs[..|fs| - 1]), fs[|fs| - 1];
      if f.ErrorFrame? then front
      else front + (if f.blocked then [StopContentFilter] else []) + FinishesOf(f.candidates)
  }

  function TiersOf(fs: seq<WireFrame>): seq<string> {
    if fs == [] then []
    else
      var front, f := TiersOf(fs[..|fs| - 1]), fs[|fs| - 1];
      if f.ResponseFrame? && f.tier != "" then front + [f.tier] else front
  }

  function UsagesOf(fs: seq<WireFrame>): seq<Usage> {
    if fs == [] then []
    else
      var front, f := UsagesOf(fs[..|fs| - 1]), fs[|fs| - 1];
      if f.ResponseFrame? && f.usage.Some? then front + [f.usage.value] else front
  }

  function OpeningOf(fs: seq<WireFrame>): seq<Event> {
    if fs == [] then []
    else
      var front, f := OpeningOf(fs[..|fs| - 1]), fs[|fs| - 1];
      if front != [] || f.ErrorFrame? then front
      else [MessageStart(f.responseId, f.model, NO_RECEIPTS, None, 0, "", None)]
  }

  predicate MakesCall(voices: seq<Voice>) { exists k :: 0 <= k < |voices| && voices[k].Called? }

  /** What a decoder has taken down for the end. */
  ghost predicate TakenDown(d: State, fs: seq<WireFrame>, synth: SynthId) {
    && d.stopReason == Reported.Last(ReasonsOf(fs), StopUnset) && d.tier == Reported.Last(TiersOf(fs), "")
    && (d.sawCall <==> MakesCall(FramesVoices(fs, synth).1))
    && (d.started <==> OpeningOf(fs) != []) && (!d.started ==> d.messageId == "") && !d.done
  }

  /** No reason, tier, usage, opening or end is touched by the parts. */
  ghost predicate PartsOnly(d: State, out: Out) {
    && out.next.stopReason == d.stopReason && out.next.tier == d.tier && out.next.usage == d.usage
    && out.next.started == d.started && out.next.messageId == d.messageId && out.next.done == d.done
    && Terminals(out.events) == []
  }

  lemma CallIsOnlyPart(d: State, call: Call, signature: string, synth: SynthId)
    ensures PartsOnly(d, EmitCall(d, call, signature, synth)) && EmitCall(d, call, signature, synth).next.sawCall
  {
    NoTerminals(EmitCall(d, call, signature, synth).events);
  }

  lemma SwitchIsQuiet(d: State, kind: BlockKind)
    ensures Terminals(SwitchTo(d, kind).events) == []
  {
    NoTerminals(SwitchTo(d, kind).events);
  }

  lemma MaybeQuiet(front: seq<Event>, said: bool, ev: Event)
    requires !ev.MessageStart? && !ev.MessageDelta? && !ev.MessageStop?
    ensures Terminals(front + if said then [ev] else []) == Terminals(front)
  {
    NoTerminals([ev]);
    TerminalsConcat(front, [ev]);
    ConcatNothing(front);
    ConcatNothing(Terminals(front));
  }

  lemma ThoughtIsOnlyPart(d: State, p: Part)
    ensures PartsOnly(d, DecodeThought(d, p)) && DecodeThought(d, p).next.sawCall == d.sawCall
  {
    var switched := SwitchTo(d, BlockThinking);
    var i, text := switched.next.current.value.index, StripNul(p.text);
    SwitchVoices(d, BlockThinking);
    SwitchIsQuiet(d, BlockThinking);
    MaybeQuiet(switched.events, text != "", ThinkingDelta(i, text));
    MaybeQuiet(switched.events + (if text != "" then [ThinkingDelta(i, text)] else []),
               p.signature != "", SigDelta(i, p.signature, "gemini"));
  }

  lemma TextIsOnlyPart(d: State, p: Part)
    ensures PartsOnly(d, DecodeText(d, p)) && DecodeText(d, p).next.sawCall == d.sawCall
  {
    var added := Added(d.emitted, StripNul(p.text));
    if StripNul(p.text) != "" && added != "" {
      var d' := d.(emitted := d.emitted + added);
      var switched := SwitchTo(d', BlockText);
      SwitchVoices(d', BlockText);
      SwitchIsQuiet(d', BlockText);
      MaybeQuiet(switched.events, true, TextDelta(switched.next.current.value.index, added));
    }
  }

  lemma PartIsOnlyPart(d: State, p: Part, synth: SynthId)
    ensures PartsOnly(d, DecodePart(d, p, synth))
    ensures DecodePart(d, p, synth).next.sawCall == (d.sawCall || p.call.Some?)
  {
    if p.call.Some? { CallIsOnlyPart(d, p.call.value, p.signature, synth); }
    else if p.thought { ThoughtIsOnlyPart(d, p); }
    else if p.text != "" { TextIsOnlyPart(d, p); }
  }

  predicate HasCall(parts: seq<Part>) { exists k :: 0 <= k < |parts| && parts[k].call.Some? }

  lemma {:induction false} PartsAreOnlyParts(d: State, parts: seq<Part>, synth: SynthId)
    ensures PartsOnly(d, DecodeParts(d, parts, synth))
    ensures DecodeParts(d, parts, synth).next.sawCall == (d.sawCall || HasCall(parts))
  {
    if parts == [] {
    } else {
      var front, p := parts[..|parts| - 1], parts[|parts| - 1];
      var mid := DecodeParts(d, front, synth);
      PartsAreOnlyParts(d, front, synth);
      PartIsOnlyPart(mid.next, p, synth);
      TerminalsConcat(mid.events, DecodePart(mid.next, p, synth).events);
      HasCallMore(front, p);
      FrontLast(parts);
    }
  }

  lemma HasCallMore(front: seq<Part>, p: Part)
    ensures HasCall(front + [p]) <==> HasCall(front) || p.call.Some?
  {
    assert (front + [p])[|front|] == p;
    if HasCall(front) {
      var k :| 0 <= k < |front| && front[k].call.Some?;
      assert (front + [p])[k].call.Some?;
    }
  }

  lemma CallsConcat(a: seq<Voice>, b: seq<Voice>)
    ensures MakesCall(a + b) <==> MakesCall(a) || MakesCall(b)
  {
    if MakesCall(a) {
      var k :| 0 <= k < |a| && a[k].Called?;
      assert (a + b)[k].Called?;
    }
    if MakesCall(b) {
      var k :| 0 <= k < |b| && b[k].Called?;
      assert (a + b)[|a| + k].Called?;
    }
  }

  lemma {:induction false} VoicedCalls(t: Tally, parts: seq<Part>, synth: SynthId)
    ensures MakesCall(PartsVoices(t, parts, synth).1) <==> HasCall(parts)
  {
    if parts == [] {
    } else {
      var front, p := parts[..|parts| - 1], parts[|parts| - 1];
      var v := PartsVoices(t, front, synth);
      VoicedCalls(t, front, synth);
      CallsConcat(v.1, PartVoices(v.0, p, synth));
      assert MakesCall(PartVoices(v.0, p, synth)) <==> p.call.Some? by {
        if p.call.Some? { assert PartVoices(v.0, p, synth)[0].Called?; }
      }
      HasCallMore(front, p);
      FrontLast(parts);
    }
  }

  /** Candidates take down their finish reasons and whether they called. */
  ghost predicate CandidatesOnly(d: State, out: Out, cs: seq<Candidate>, voices: seq<Voice>) {
    && out.next.stopReason == Reported.Last(FinishesOf(cs), d.stopReason)
    && out.next.sawCall == (d.sawCall || MakesCall(voices))
    && PartsOnly(d.(stopReason := out.next.stopReason), out)
  }

  lemma CandidateTakesDown(d: State, t: Tally, c: Candidate, synth: SynthId)
    requires c.index == 0
    ensures var out := DecodeCandidate(d, c, synth);
      && out.next.stopReason == (if c.finish.Some? then c.finish.value else d.stopReason)
      && out.next.sawCall == (d.sawCall || MakesCall(PartsVoices(t, c.parts, synth).1))
      && PartsOnly(d.(stopReason := out.next.stopReason), out)
  {
    var parts := DecodeParts(d, c.parts, synth);
    PartsAreOnlyParts(d, c.parts, synth);
    VoicedCalls(t, c.parts, synth);
    var cited := if c.citations != [] && parts.next.sawText
                 then [CitationDelta(parts.next.textIndex, c.citations)] else [];
    NoTerminals(cited);
    TerminalsConcat(parts.events, cited);
  }

  lemma NoCallCited(said: bool, cs: seq<Citation>)
    ensures !MakesCall(if said then [Cited(cs)] else [])
  {}

  lemma {:induction false} CandidatesTakeDown(d: State, t: Tally, cs: seq<Candidate>, synth: SynthId)
    ensures CandidatesOnly(d, DecodeCandidates(d, cs, synth), cs, CandidatesVoices(t, cs, synth).1)
  {
    if cs == [] {
    } else {
      var front, c := cs[..|cs| - 1], cs[|cs| - 1];
      var mid, v := DecodeCandidates(d, front, synth), CandidatesVoices(t, front, synth);
      CandidatesTakeDown(d, t, front, synth);
      if c.index == 0 {
        var w := PartsVoices(v.0, c.parts, synth);
        CandidateTakesDown(mid.next, v.0, c, synth);
        TerminalsConcat(mid.events, DecodeCandidate(mid.next, c, synth).events);
        CallsConcat(v.1, w.1);
        NoCallCited(c.citations != [] && w.0.emitted != "", c.citations);
        CallsConcat(v.1 + w.1, if c.citations != [] && w.0.emitted != "" then [Cited(c.citations)] else []);
      } else {
        ConcatNothing(mid.events);
      }
    }
  }

  /** The state in which the candidates of a frame are read. */
  function Headed(d: State, f: WireFrame): State
    requires f.ResponseFrame?
  {
    Heed(Start(if f.responseId != "" then d.(messageId := f.responseId) else d, f.model).next, f)
  }

  lemma FrameIsHeadAndCandidates(d: State, f: WireFrame, synth: SynthId)
    requires f.ResponseFrame?
    ensures var begun, out := Start(if f.responseId != "" then d.(messageId := f.responseId) else d, f.model),
                              DecodeCandidates(Headed(d, f), f.candidates, synth);
      && FeedOne(d, f, synth) == Out(out.next, begun.events + out.events)
      && Terminals(FeedOne(d, f, synth).events) == begun.events + Terminals(out.events)
  {
    var begun := Start(if f.responseId != "" then d.(messageId := f.responseId) else d, f.model);
    AllTerminals(begun.events);
    TerminalsConcat(begun.events, DecodeCandidates(Headed(d, f), f.candidates, synth).events);
  }

  /** What the candidates of a frame leave of the decoder's head. */
  lemma CandidatesLeave(d: State, f: WireFrame, t: Tally, synth: SynthId)
    requires f.ResponseFrame?
    ensures var now, h := FeedOne(d, f, synth).next, Headed(d, f);
      && now.stopReason == Reported.Last(FinishesOf(f.candidates), h.stopReason)
      && now.sawCall == (h.sawCall || MakesCall(CandidatesVoices(t, f.candidates, synth).1))
      && now.tier == h.tier && now.usage == h.usage && now.started == h.started && now.messageId == h.messageId
      && now.done == h.done
      && Terminals(FeedOne(d, f, synth).events)
           == Start(if f.responseId != "" then d.(messageId := f.responseId) else d, f.model).events
  {
    FrameIsHeadAndCandidates(d, f, synth);
    CandidatesTakeDown(Headed(d, f), t, f.candidates, synth);
    ConcatNothing(Start(if f.responseId != "" then d.(messageId := f.responseId) else d, f.model).events);
  }

  lemma FrameOpens(d: State, fs: seq<WireFrame>, f: WireFrame, synth: SynthId)
    requires TakenDown(d, fs, synth) && f.ResponseFrame?
    ensures Start(if f.responseId != "" then d.(messageId := f.responseId) else d, f.model).events
         == (if OpeningOf(fs) == [] then OpeningOf(fs + [f]) else [])
    ensures OpeningOf(fs + [f]) != [] && Headed(d, f).started && !Headed(d, f).done
    ensures Headed(d, f).sawCall == d.sawCall
    ensures Headed(d, f).stopReason == if f.blocked then StopContentFilter else d.stopReason
    ensures Headed(d, f).tier == if f.tier != "" then f.tier else d.tier
  {
    assert (fs + [f])[..|fs|] == fs;
  }

  lemma FrameTakesDown(d: State, fs: seq<WireFrame>, f: WireFrame, synth: SynthId)
    requires TakenDown(d, fs, synth) && f.ResponseFrame?
    ensures TakenDown(FeedOne(d, f, synth).next, fs + [f], synth)
    ensures Terminals(FeedOne(d, f, synth).events) == (if OpeningOf(fs) == [] then OpeningOf(fs + [f]) else [])
  {
    var v := FramesVoices(fs, synth);
    var t' := if f.responseId != "" then v.0.(messageId := f.responseId) else v.0;
    CandidatesLeave(d, f, t', synth);
    FrameOpens(d, fs, f, synth);
    VoicesFollow(fs, f, synth);
    CallsConcat(v.1, CandidatesVoices(t', f.candidates, synth).1);
    ReasonsFollow(fs, f);
    TiersFollow(fs, f);
  }

  lemma VoicesFollow(fs: seq<WireFrame>, f: WireFrame, synth: SynthId)
    requires f.ResponseFrame?
    ensures var v := FramesVoices(fs, synth);
      FramesVoices(fs + [f], synth).1
      == v.1 + CandidatesVoices(if f.responseId != "" then v.0.(messageId := f.responseId) else v.0, f.candidates, synth).1
  {
    assert (fs + [f])[..|fs|] == fs;
  }

  lemma TiersFollow(fs: seq<WireFrame>, f: WireFrame)
    requires f.ResponseFrame?
    ensures Reported.Last(TiersOf(fs + [f]), "") == if f.tier != "" then f.tier else Reported.Last(TiersOf(fs), "")
  {
    assert (fs + [f])[..|fs|] == fs;
  }

  lemma ReasonsFollow(fs: seq<WireFrame>, f: WireFrame)
    requires f.ResponseFrame?
    ensures Reported.Last(ReasonsOf(fs + [f]), StopUnset)
         == Reported.Last(FinishesOf(f.candidates),
                          if f.blocked then StopContentFilter else Reported.Last(ReasonsOf(fs), StopUnset))
  {
    assert (fs + [f])[..|fs|] == fs;
    var blocked := if f.blocked then [StopContentFilter] else [];
    Reported.LastAppend(ReasonsOf(fs) + blocked, FinishesOf(f.candidates), StopUnset);
    Reported.LastAppend(ReasonsOf(fs), blocked, StopUnset);
  }

  lemma {:induction false} FramesTakeDown(fs: seq<WireFrame>, synth: SynthId)
    ensures var out := FeedAll(FRESH, fs, synth);
      TakenDown(out.next, fs, synth) && Terminals(out.events) == OpeningOf(fs)
  {
    if fs == [] {
    } else {
      var front, f := fs[..|fs| - 1], fs[|fs| - 1];
      var mid := FeedAll(FRESH, front, synth);
      FramesTakeDown(front, synth);
      TerminalsConcat(mid.events, FeedOne(mid.next, f, synth).events);
      FrontLast(fs);
      ConcatNothing(OpeningOf(front));
      if f.ErrorFrame? {
        NoTerminals([StreamError(f.message)]);
      } else {
        FrameTakesDown(mid.next, front, f, synth);
      }
    }
  }

  /** The reason a stream ends with: the last one told, or a regular end; and a regular end after a
      call is a stop for the call. */
  function EndReason(fs: seq<WireFrame>, synth: SynthId): StopReason {
    var told := Reported.Last(ReasonsOf(fs), StopUnset);
    if told != StopUnset && told != StopEndTurn then told
    else if MakesCall(FramesVoices(fs, synth).1) then StopToolUse else StopEndTurn
  }

  lemma FinishEnds(d: State)
    requires !d.done
    ensures Terminals(Finish(d).events)
         == [MessageDelta(FinalReason(d), "", None, NO_RECEIPTS.(serviceTier := d.tier), d.usage), MessageStop]
  {
    var tail := [MessageDelta(FinalReason(d), "", None, NO_RECEIPTS.(serviceTier := d.tier), d.usage), MessageStop];
    var closing := CloseCurrent(d.(done := true)).events;
    NoTerminals(closing);
    AllTerminals(tail);
    TerminalsConcat(closing, tail);
  }

  /** The message opens once, with the id and the model of the first response, and ends once, with
      the last reason and the last tier told. */
  lemma MessageOpensAndEnds(fs: seq<WireFrame>, synth: SynthId)
    ensures Terminals(WholeStream(fs, synth))
         == OpeningOf(fs)
            + [MessageDelta(EndReason(fs, synth), "", None,
                            NO_RECEIPTS.(serviceTier := Reported.Last(TiersOf(fs), "")),
                            FeedAll(FRESH, fs, synth).next.usage),
               MessageStop]
  {
    var out := FeedAll(FRESH, fs, synth);
    FramesTakeDown(fs, synth);
    FinishEnds(out.next);
    TerminalsConcat(out.events, Finish(out.next).events);
  }

  lemma UsageHeeded(d: State, f: WireFrame, synth: SynthId)
    requires f.ResponseFrame?
    ensures FeedOne(d, f, synth).next.usage == Heed(d, f).usage
  {
    CandidatesLeave(d, f, Tally("", 0, ""), synth);
  }

  /** What the usage of the end adds up to, as long as the reports count nothing below zero. */
  lemma {:induction false} UsageIsWhatWasReported(fs: seq<WireFrame>, synth: SynthId)
    requires forall i :: 0 <= i < |UsagesOf(fs)| ==> Aggregate.NormalUsage(UsagesOf(fs)[i])
    ensures var usage := FeedAll(FRESH, fs, synth).next.usage;
      && (usage.None? <==> UsagesOf(fs) == [])
      && (usage.Some? ==> Reported.SumsUp(UsagesOf(fs), usage.value))
  {
    if fs == [] {
    } else {
      var front, f := fs[..|fs| - 1], fs[|fs| - 1];
      var us, d := UsagesOf(front), FeedAll(FRESH, front, synth).next;
      assert forall i :: 0 <= i < |us| ==> us[i] == UsagesOf(fs)[i];
      UsageIsWhatWasReported(front, synth);
      if f.ResponseFrame? {
        UsageHeeded(d, f, synth);
        if f.usage.Some? {
          var u := f.usage.value;
          assert UsagesOf(fs)[|us|] == u;
          if us == [] { FirstSumsUp(u); } else { Reported.SumsUpMore(us, d.usage.value, u); }
        }
      }
    }
  }

  lemma FirstSumsUp(u: Usage)
    requires Aggregate.NormalUsage(u)
    ensures Reported.SumsUp([u], u) && [] + [u] == [u]
  {
    Reported.NoUsageSaid();
    Reported.SumsUpMore([], ZERO_USAGE, u);
    assert [] + [u] == [u];
    assert Aggregate.MergeUsage(ZERO_USAGE, u) == u;
  }

  // ----- the text, all the way to the client -----

  predicate HasError(fs: seq<WireFrame>) { exists k :: 0 <= k < |fs| && fs[k].ErrorFrame? }

  /** The frames ahead of the first error. */
  function BeforeError(fs: seq<WireFrame>): seq<WireFrame> {
    if HasError(fs) then BeforeError(fs[..|fs| - 1]) else fs
  }

  /** All the text the client reads, whatever the block. */
  function TextRead(fs: seq<Anthropic.Frame>): string {
    if fs == [] then ""
    else
      var f := fs[|fs| - 1];
      TextRead(fs[..|fs| - 1]) + if f.FDelta? && f.kind == Anthropic.DeltaText then f.text else ""
  }

  lemma {:induction false} TextReadConcat(a: seq<Anthropic.Frame>, b: seq<Anthropic.Frame>)
    ensures TextRead(a + b) == TextRead(a) + TextRead(b)
  {
    if b == [] {
      ConcatNothing(a);
      ConcatNothing(TextRead(a));
    } else {
      ConcatFront(a, b);
      TextReadConcat(a, b[..|b| - 1]);
      var f := b[|b| - 1];
      Associate(TextRead(a), TextRead(b[..|b| - 1]), if f.FDelta? && f.kind == Anthropic.DeltaText then f.text else "");
    }
  }

  lemma {:induction false} TextReadOfWords(fs: seq<Anthropic.Frame>)
    ensures TextRead(Words.WordsShown(fs)) == TextRead(fs)
  {
    if fs == [] {
    } else {
      var front, f := fs[..|fs| - 1], fs[|fs| - 1];
      TextReadOfWords(front);
      if Words.IsWord(f) {
        assert (Words.WordsShown(front) + [f])[..|Words.WordsShown(front)|] == Words.WordsShown(front);
      } else {
        ConcatNothing(TextRead(front));
      }
    }
  }

  lemma HadErrorConcat(a: seq<Event>, b: seq<Event>)
    ensures Words.HadError(a + b) <==> Words.HadError(a) || Words.HadError(b)
  {
    if Words.HadError(a) {
      var k :| 0 <= k < |a| && a[k].StreamError?;
      assert (a + b)[k].StreamError?;
    }
    if Words.HadError(b) {
      var k :| 0 <= k < |b| && b[k].StreamError?;
      assert (a + b)[|a| + k].StreamError?;
    }
  }

  lemma {:induction false} NothingAfterError(a: seq<Event>, b: seq<Event>, fam: Anthropic.Family)
    requires Words.HadError(a)
    ensures Words.WordsHeard(a + b, fam) == Words.WordsHeard(a, fam)
  {
    if b == [] {
      ConcatNothing(a);
    } else {
      ConcatFront(a, b);
      HadErrorConcat(a, b[..|b| - 1]);
      NothingAfterError(a, b[..|b| - 1], fam);
      ConcatNothing(Words.WordsHeard(a, fam));
    }
  }

  lemma {:induction false} TextIsHeard(evs: seq<Event>, fam: Anthropic.Family)
    requires !Words.HadError(evs)
    ensures TextRead(Words.WordsHeard(evs, fam)) == TextOf(evs)
  {
    if evs == [] {
    } else {
      var front, ev := evs[..|evs| - 1], evs[|evs| - 1];
      FrontLast(evs);
      HadErrorConcat(front, [ev]);
      TextIsHeard(front, fam);
      WordIsRead(Words.WordsHeard(front, fam), ev, fam);
    }
  }

  lemma WordIsRead(words: seq<Anthropic.Frame>, ev: Event, fam: Anthropic.Family)
    ensures TextRead(words + Words.WordOf(ev, fam)) == TextRead(words) + if ev.TextDelta? then ev.text else ""
  {
    var more := Words.WordOf(ev, fam);
    ConcatNothing(words);
    ConcatNothing(TextRead(words));
    if more != [] { assert (words + more)[..|words|] == words; }
  }

  /** A frame tells of an error exactly when it is one. */
  lemma FrameErrs(d: State, f: WireFrame, synth: SynthId)
    ensures Words.HadError(FeedOne(d, f, synth).events) <==> f.ErrorFrame?
  {
    if f.ErrorFrame? {
      assert FeedOne(d, f, synth).events[0].StreamError?;
    } else {
      CandidatesErrNot(Headed(d, f), f.candidates, synth);
      FrameIsHeadAndCandidates(d, f, synth);
      var named := if f.responseId != "" then d.(messageId := f.responseId) else d;
      HadErrorConcat(Start(named, f.model).events, DecodeCandidates(Headed(d, f), f.candidates, synth).events);
    }
  }

  lemma {:induction false} CandidatesErrNot(d: State, cs: seq<Candidate>, synth: SynthId)
    ensures !Words.HadError(DecodeCandidates(d, cs, synth).events)
  {
    if cs == [] {
    } else {
      var front, c := cs[..|cs| - 1], cs[|cs| - 1];
      var mid := DecodeCandidates(d, front, synth);
      CandidatesErrNot(d, front, synth);
      CandidateErrsNot(mid.next, c, synth);
      HadErrorConcat(mid.events, DecodeCandidate(mid.next, c, synth).events);
    }
  }

  lemma CandidateErrsNot(d: State, c: Candidate, synth: SynthId)
    ensures !Words.HadError(DecodeCandidate(d, c, synth).events)
  {
    if c.index == 0 {
      var parts := DecodeParts(d, c.parts, synth);
      PartsErrNot(d, c.parts, synth);
      HadErrorConcat(parts.events, if c.citations != [] && parts.next.sawText
                                   then [CitationDelta(parts.next.textIndex, c.citations)] else []);
    }
  }

  lemma {:induction false} PartsErrNot(d: State, parts: seq<Part>, synth: SynthId)
    ensures !Words.HadError(DecodeParts(d, parts, synth).events)
  {
    if parts == [] {
    } else {
      var front, p := parts[..|parts| - 1], parts[|parts| - 1];
      var mid := DecodeParts(d, front, synth);
      PartsErrNot(d, front, synth);
      PartErrsNot(mid.next, p, synth);
      HadErrorConcat(mid.events, DecodePart(mid.next, p, synth).events);
    }
  }

  lemma PartErrsNot(d: State, p: Part, synth: SynthId)
    ensures !Words.HadError(DecodePart(d, p, synth).events)
  {}

  lemma {:induction false} FramesErr(fs: seq<WireFrame>, synth: SynthId)
    ensures Words.HadError(FeedAll(FRESH, fs, synth).events) <==> HasError(fs)
  {
    if fs == [] {
    } else {
      var front, f := fs[..|fs| - 1], fs[|fs| - 1];
      var mid := FeedAll(FRESH, front, synth);
      FramesErr(front, synth);
      FrameErrs(mid.next, f, synth);
      HadErrorConcat(mid.events, FeedOne(mid.next, f, synth).events);
      FrontLast(fs);
      HasErrorMore(front, f);
    }
  }

  lemma HasErrorMore(front: seq<WireFrame>, f: WireFrame)
    ensures HasError(front + [f]) <==> HasError(front) || f.ErrorFrame?
  {
    assert (front + [f])[|front|] == f;
    if HasError(front) {
      var k :| 0 <= k < |front| && front[k].ErrorFrame?;
      assert (front + [f])[k].ErrorFrame?;
    }
  }

  lemma HeardInFull(fs: seq<WireFrame>, synth: SynthId, fam: Anthropic.Family)
    requires !HasError(fs)
    ensures TextRead(Words.WordsHeard(FeedAll(FRESH, fs, synth).events, fam)) == Running("", Texts(fs))
  {
    var out := FeedAll(FRESH, fs, synth);
    FramesErr(fs, synth);
    FramesSpeak(fs, synth);
    TextIsHeard(out.events, fam);
    ConcatNothing(TextOf(out.events));
  }

  /** An error frame says nothing itself. */
  lemma ErrorIsSilent(evs: seq<Event>, message: string, fam: Anthropic.Family)
    ensures Words.WordsHeard(evs + [StreamError(message)], fam) == Words.WordsHeard(evs, fam)
  {
    assert (evs + [StreamError(message)])[..|evs|] == evs;
    ConcatNothing(Words.WordsHeard(evs, fam));
  }

  lemma {:induction false} FramesAreHeard(fs: seq<WireFrame>, synth: SynthId, fam: Anthropic.Family)
    ensures TextRead(Words.WordsHeard(FeedAll(FRESH, fs, synth).events, fam)) == Running("", Texts(BeforeError(fs)))
  {
    if !HasError(fs) {
      HeardInFull(fs, synth, fam);
    } else {
      var front, f := fs[..|fs| - 1], fs[|fs| - 1];
      var mid := FeedAll(FRESH, front, synth);
      FramesAreHeard(front, synth, fam);
      FrontLast(fs);
      HasErrorMore(front, f);
      if HasError(front) {
        FramesErr(front, synth);
        NothingAfterError(mid.events, FeedOne(mid.next, f, synth).events, fam);
      } else {
        ErrorIsSilent(mid.events, f.message, fam);
      }
    }
  }

  lemma {:induction false} EndIsSilent(evs: seq<Event>, more: seq<Event>, fam: Anthropic.Family)
    requires forall k :: 0 <= k < |more| ==> Words.WordOf(more[k], fam) == []
    ensures Words.WordsHeard(evs + more, fam) == Words.WordsHeard(evs, fam)
  {
    if more == [] {
      ConcatNothing(evs);
    } else {
      ConcatFront(evs, more);
      EndIsSilent(evs, more[..|more| - 1], fam);
      ConcatNothing(Words.WordsHeard(evs, fam));
    }
  }

  lemma WholeIsHeard(fs: seq<WireFrame>, synth: SynthId, fam: Anthropic.Family)
    ensures Words.WordsHeard(WholeStream(fs, synth), fam) == Words.WordsHeard(FeedAll(FRESH, fs, synth).events, fam)
  {
    var out := FeedAll(FRESH, fs, synth);
    EndIsSilent(out.events, Finish(out.next).events, fam);
  }

  /** From the upstream's frames to the client's screen: the client reads the running text, up to
      the first error.  Of an upstream that repeats its text with every frame it reads the longest
      version, once; of one that sends pieces, the pieces joined. */
  lemma TextReachesTheClient(fs: seq<WireFrame>, synth: SynthId, fam: Anthropic.Family)
    ensures var read, texts := TextRead(Grammar.Transcript(WholeStream(fs, synth), fam)), Texts(BeforeError(fs));
      && read == Running("", texts)
      && (Cumulative(texts) ==> read == Longest(texts)) && (Incremental(texts) ==> read == Joined(texts))
  {
    var texts := Texts(BeforeError(fs));
    var written := Grammar.Transcript(WholeStream(fs, synth), fam);
    assert TextRead(written) == Running("", texts) by {
      Words.WordsArrive(WholeStream(fs, synth), fam);
      TextReadOfWords(written);
      FramesAreHeard(fs, synth, fam);
      WholeIsHeard(fs, synth, fam);
    }
    if Cumulative(texts) { RunningIsLongest(texts); }
    if Incremental(texts) { PiecesAreJoined(texts); }
  }
}
