/** What an Anthropic client reads: the words, the opening and the end of the message, told from
    the events alone and for every stream, well formed or not: backend/codec/anthropic/encode_stream.go. */
module AnthropicWords {
  import opened Ir
  import opened Seqs
  import opened AnthropicStream
  import opened AnthropicGrammar

  // ----- once an error was told, nothing is heard -----

  predicate HadError(evs: seq<Event>) { exists k :: 0 <= k < |evs| && evs[k].StreamError? }

  lemma HadErrorMore(evs: seq<Event>, ev: Event)
    ensures HadError(evs + [ev]) <==> HadError(evs) || ev.StreamError?
  {
    var more := evs + [ev];
    assert more[|evs|] == ev;
    if HadError(evs) {
      var k :| 0 <= k < |evs| && evs[k].StreamError?;
      assert more[k].StreamError?;
    }
  }

  lemma {:induction false} CloseEachErrs(s: State, order: seq<int>)
    ensures var step := CloseEach(s, order);
      step.next.errored == s.errored && step.next.started == s.started && step.next.text == s.text
      && step.next.sentDelta == s.sentDelta && step.next.stopped == s.stopped
    decreases order
  {
    if order == [] {
    } else if order[0] in s.open {
      CloseEachErrs(Close(s, order[0]).next, order[1..]);
    } else {
      CloseEachErrs(s, order[1..]);
    }
  }

  lemma StepErrs(s: State, ev: Event, fam: Family)
    ensures Encode(s, ev, fam).next.errored == (s.errored || ev.StreamError?)
  {
    CloseEachErrs(s, s.order);
    CloseEachErrs(s.(started := true), s.order);
  }

  lemma {:induction false} RunErrs(evs: seq<Event>, fam: Family)
    ensures EncodeAll(FRESH, evs, fam).next.errored <==> HadError(evs)
  {
    if evs == [] {
    } else {
      var front, ev := evs[..|evs| - 1], evs[|evs| - 1];
      RunErrs(front, fam);
      StepErrs(EncodeAll(FRESH, front, fam).next, ev, fam);
      FrontLast(evs);
      HadErrorMore(front, ev);
    }
  }

  // ----- words -----

  predicate IsWord(f: Frame) {
    f.FDelta? && (f.kind == DeltaText || f.kind == DeltaThinking || f.kind == DeltaSignature)
  }

  /** The words among the frames written, in order. */
  function WordsShown(fs: seq<Frame>): seq<Frame> {
    if fs == [] then []
    else
      var front, f := WordsShown(fs[..|fs| - 1]), fs[|fs| - 1];
      if IsWord(f) then front + [f] else front
  }

  /** The word an event says, if any.  Signatures of another vendor are not passed on. */
  function WordOf(ev: Event, fam: Family): seq<Frame> {
    match ev
    case TextDelta(i, text) => [FDelta(i, DeltaText, text)]
    case ThinkingDelta(i, text) => [FDelta(i, DeltaThinking, text)]
    case SigDelta(i, text, from) =>
      if text != "" && (from != "anthropic" || fam.foreignPrefix(text)) then [] else [FDelta(i, DeltaSignature, text)]
    case _ => []
  }

  function WordsHeard(evs: seq<Event>, fam: Family): seq<Frame> {
    if evs == [] then []
    else
      var front := evs[..|evs| - 1];
      WordsHeard(front, fam) + if HadError(front) then [] else WordOf(evs[|evs| - 1], fam)
  }

  lemma {:induction false} WordsConcat(a: seq<Frame>, b: seq<Frame>)
    ensures WordsShown(a + b) == WordsShown(a) + WordsShown(b)
  {
    if b == [] {
      ConcatNothing(a);
      ConcatNothing(WordsShown(a));
    } else {
      ConcatFront(a, b);
      WordsConcat(a, b[..|b| - 1]);
    }
  }

  lemma {:induction false} Wordless(fs: seq<Frame>)
    requires forall f :: f in fs ==> !IsWord(f)
    ensures WordsShown(fs) == []
  {
    if fs == [] {
    } else {
      Wordless(fs[..|fs| - 1]);
    }
  }

  lemma WordsOne(f: Frame)
    ensures WordsShown([f]) == if IsWord(f) then [f] else []
  {
    assert [f][..0] == [];
    assert WordsShown([f][..0]) == [];
  }

  lemma {:induction false} CloseEachIsWordless(s: State, order: seq<int>)
    ensures forall f :: f in CloseEach(s, order).frames ==>
      f.FBlockStop? || (f.FDelta? && f.kind == DeltaInputJson && f.text == "{}")
    decreases order
  {
    if order == [] {
    } else if order[0] in s.open {
      CloseEachIsWordless(Close(s, order[0]).next, order[1..]);
    } else {
      CloseEachIsWordless(s, order[1..]);
    }
  }

  lemma {:induction false} CitationsAreWordless(index: int, text: string, cs: seq<Citation>)
    ensures forall f :: f in CitationFrames(index, text, cs) ==> f.FDelta? && f.kind == DeltaCitation
  {
    if cs == [] {
    } else {
      CitationsAreWordless(index, text, cs[..|cs| - 1]);
    }
  }

  /** A delta is always written, and it alone is a word. */
  lemma DeltaSpeaks(s: State, index: int, kind: DeltaKind, text: string, blank: BlockKind, fam: Family)
    requires blank == BlockText || blank == BlockThinking
    ensures WordsShown(Delta(s, index, kind, text, blank, fam).frames) == WordsShown([FDelta(index, kind, text)])
  {
    if index !in s.open {
      var begun := StartBlock(s, index, Some(EmptyBlock(blank)), fam);
      Wordless(begun.frames);
      WordsConcat(begun.frames, [FDelta(index, kind, text)]);
      ConcatNothing(WordsShown([FDelta(index, kind, text)]));
    }
  }

  lemma EndIsWordless(s: State, ev: Event, fam: Family)
    requires !s.errored && (ev.MessageDelta? || ev.MessageStop? || ev.StreamError? || ev.BlockStop?)
    ensures WordsShown(Encode(s, ev, fam).frames) == []
  {
    CloseEachIsWordless(s, s.order);
    CloseEachIsWordless(s.(started := true), s.order);
    Wordless(Encode(s, ev, fam).frames);
  }

  lemma BlockIsWordless(s: State, i: int, block: Option<Block>, fam: Family)
    ensures WordsShown(StartBlock(s, i, block, fam).frames) == []
  {
    Wordless(StartBlock(s, i, block, fam).frames);
  }

  lemma InputIsWordless(s: State, i: int, text: string, fam: Family)
    ensures WordsShown(Delta(s, i, DeltaInputJson, text, BlockToolUse, fam).frames) == []
  {
    Wordless(Delta(s, i, DeltaInputJson, text, BlockToolUse, fam).frames);
  }

  lemma StepSpeaks(s: State, ev: Event, fam: Family)
    requires !s.errored
    ensures WordsShown(Encode(s, ev, fam).frames) == WordOf(ev, fam)
  {
    match ev
    case TextDelta(i, text) =>
      DeltaSpeaks(s.(text := s.text[i := TextSoFar(s, i) + text]), i, DeltaText, text, BlockText, fam);
      WordsOne(FDelta(i, DeltaText, text));
    case ThinkingDelta(i, text) =>
      DeltaSpeaks(s, i, DeltaThinking, text, BlockThinking, fam);
      WordsOne(FDelta(i, DeltaThinking, text));
    case SigDelta(i, text, from) =>
      DeltaSpeaks(s, i, DeltaSignature, text, BlockThinking, fam);
      WordsOne(FDelta(i, DeltaSignature, text));
    case BlockStart(i, block) => BlockIsWordless(s, i, block, fam);
    case ToolInput(i, text) => InputIsWordless(s, i, text, fam);
    case CitationDelta(i, cs) => CitationsAreWordless(i, TextSoFar(s, i), cs); Wordless(Encode(s, ev, fam).frames);
    case MessageStart(id, model, _, _, _, _, _) => Wordless(Start(s, id, model).frames);
    case Ping => Wordless([FPing]);
    case _ => EndIsWordless(s, ev, fam);
  }

  lemma {:induction false} RunSpeaks(evs: seq<Event>, fam: Family)
    ensures WordsShown(EncodeAll(FRESH, evs, fam).frames) == WordsHeard(evs, fam)
  {
    if evs == [] {
    } else {
      var front, ev := evs[..|evs| - 1], evs[|evs| - 1];
      var s := EncodeAll(FRESH, front, fam).next;
      RunSpeaks(front, fam);
      RunErrs(front, fam);
      WordsConcat(EncodeAll(FRESH, front, fam).frames, Encode(s, ev, fam).frames);
      if !s.errored { StepSpeaks(s, ev, fam); }
    }
  }

  /** Every text, every piece of reasoning and every signature that is the family's own reaches
      the client: once, under the index it came with, in the order of arrival, and nothing else
      does.  That holds of every stream of events, however malformed, up to an error. */
  lemma WordsArrive(evs: seq<Event>, fam: Family)
    ensures WordsShown(Transcript(evs, fam)) == WordsHeard(evs, fam)
  {
    var run := EncodeAll(FRESH, evs, fam);
    RunSpeaks(evs, fam);
    WordsConcat(run.frames, Finish(run.next).frames);
    if !run.next.stopped && !run.next.errored {
      StepSpeaks(run.next, MessageStop, Family(_ => false, _ => None));
    }
    ConcatNothing(WordsHeard(evs, fam));
  }

  // ----- what a client assembles for one block -----

  /** What the client concatenates for block `i` in one slot. */
  function Assembled(fs: seq<Frame>, i: int, kind: DeltaKind): string {
    if fs == [] then ""
    else
      var f := fs[|fs| - 1];
      Assembled(fs[..|fs| - 1], i, kind) + (if f.FDelta? && f.index == i && f.kind == kind then f.text else "")
  }

  /** The texts heard for block `i`. */
  function TextHeard(evs: seq<Event>, i: int): string {
    if evs == [] then ""
    else
      var front, ev := evs[..|evs| - 1], evs[|evs| - 1];
      TextHeard(front, i) + if ev.TextDelta? && ev.index == i && !HadError(front) then ev.text else ""
  }

  function ThinkingHeard(evs: seq<Event>, i: int): string {
    if evs == [] then ""
    else
      var front, ev := evs[..|evs| - 1], evs[|evs| - 1];
      ThinkingHeard(front, i) + if ev.ThinkingDelta? && ev.index == i && !HadError(front) then ev.text else ""
  }

  /** Signatures of another vendor left out. */
  function SignatureHeard(evs: seq<Event>, i: int, fam: Family): string {
    if evs == [] then ""
    else
      var front, ev := evs[..|evs| - 1], evs[|evs| - 1];
      SignatureHeard(front, i, fam)
      + if ev.SigDelta? && ev.index == i && !HadError(front)
           && !(ev.text != "" && (ev.signatureFrom != "anthropic" || fam.foreignPrefix(ev.text)))
        then ev.text else ""
  }

  lemma {:induction false} AssembledFromWords(fs: seq<Frame>, i: int, kind: DeltaKind)
    requires kind == DeltaText || kind == DeltaThinking || kind == DeltaSignature
    ensures Assembled(WordsShown(fs), i, kind) == Assembled(fs, i, kind)
  {
    if fs == [] {
    } else {
      var front := fs[..|fs| - 1];
      AssembledFromWords(front, i, kind);
      if IsWord(fs[|fs| - 1]) {
        assert (WordsShown(front) + [fs[|fs| - 1]])[..|WordsShown(front)|] == WordsShown(front);
      } else {
        ConcatNothing(Assembled(front, i, kind));
      }
    }
  }

  lemma AssembledMore(fs: seq<Frame>, f: Frame, i: int, kind: DeltaKind)
    ensures Assembled(fs + [f], i, kind)
         == Assembled(fs, i, kind) + if f.FDelta? && f.index == i && f.kind == kind then f.text else ""
  {
    assert (fs + [f])[..|fs|] == fs;
  }

  /** What an event adds to one slot of block `i`. */
  function SlotOf(ev: Event, fam: Family, i: int, kind: DeltaKind): string {
    if WordOf(ev, fam) != [] && ev.index == i && WordOf(ev, fam)[0].kind == kind then ev.text else ""
  }

  lemma WordAssembles(words: seq<Frame>, ev: Event, fam: Family, i: int, kind: DeltaKind)
    ensures Assembled(words + WordOf(ev, fam), i, kind) == Assembled(words, i, kind) + SlotOf(ev, fam, i, kind)
  {
    if WordOf(ev, fam) == [] {
      ConcatNothing(words);
      ConcatNothing(Assembled(words, i, kind));
    } else {
      AssembledMore(words, WordOf(ev, fam)[0], i, kind);
    }
  }

  lemma {:induction false} TextIsAssembled(evs: seq<Event>, fam: Family, i: int)
    ensures Assembled(WordsHeard(evs, fam), i, DeltaText) == TextHeard(evs, i)
  {
    if evs == [] {
    } else {
      var front, ev := evs[..|evs| - 1], evs[|evs| - 1];
      TextIsAssembled(front, fam, i);
      ConcatNothing(WordsHeard(front, fam));
      ConcatNothing(TextHeard(front, i));
      WordAssembles(WordsHeard(front, fam), ev, fam, i, DeltaText);
    }
  }

  lemma {:induction false} ThinkingIsAssembled(evs: seq<Event>, fam: Family, i: int)
    ensures Assembled(WordsHeard(evs, fam), i, DeltaThinking) == ThinkingHeard(evs, i)
  {
    if evs == [] {
    } else {
      var front, ev := evs[..|evs| - 1], evs[|evs| - 1];
      ThinkingIsAssembled(front, fam, i);
      ConcatNothing(WordsHeard(front, fam));
      ConcatNothing(ThinkingHeard(front, i));
      WordAssembles(WordsHeard(front, fam), ev, fam, i, DeltaThinking);
    }
  }

  lemma {:induction false} SignatureIsAssembled(evs: seq<Event>, fam: Family, i: int)
    ensures Assembled(WordsHeard(evs, fam), i, DeltaSignature) == SignatureHeard(evs, i, fam)
  {
    if evs == [] {
    } else {
      var front, ev := evs[..|evs| - 1], evs[|evs| - 1];
      SignatureIsAssembled(front, fam, i);
      ConcatNothing(WordsHeard(front, fam));
      ConcatNothing(SignatureHeard(front, i, fam));
      WordAssembles(WordsHeard(front, fam), ev, fam, i, DeltaSignature);
    }
  }

  /** For each block the client assembles exactly the texts, the reasoning and the signatures that
      were heard for it, each in its own slot. */
  lemma TextsArrive(evs: seq<Event>, fam: Family, i: int)
    ensures Assembled(Transcript(evs, fam), i, DeltaText) == TextHeard(evs, i)
    ensures Assembled(Transcript(evs, fam), i, DeltaThinking) == ThinkingHeard(evs, i)
    ensures Assembled(Transcript(evs, fam), i, DeltaSignature) == SignatureHeard(evs, i, fam)
  {
    WordsArrive(evs, fam);
    AssembledFromWords(Transcript(evs, fam), i, DeltaText);
    AssembledFromWords(Transcript(evs, fam), i, DeltaThinking);
    AssembledFromWords(Transcript(evs, fam), i, DeltaSignature);
    TextIsAssembled(evs, fam, i);
    ThinkingIsAssembled(evs, fam, i);
    SignatureIsAssembled(evs, fam, i);
  }
}
