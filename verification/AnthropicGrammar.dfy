/** What a client sees of the Anthropic encoder: the words its frames form, and which events
    keep those words well formed. */
module AnthropicGrammar {
  import opened Ir
  import opened AnthropicStream

  // ----- the client's block state machine -----

  datatype Phase = Waiting | Streaming | Finishing | Finished | Broken

  /** `open` are the blocks under way, `used` all blocks ever started. */
  datatype Client = Client(phase: Phase, open: set<int>, used: set<int>)

  const NEW_CLIENT := Client(Waiting, {}, {})

  function Accept(c: Client, f: Frame): Option<Client> {
    match f
    case FMessageStart(_, _) =>
      if c.phase == Waiting then Some(c.(phase := Streaming)) else None
    case FBlockStart(i, _) =>
      if c.phase == Streaming && i !in c.used
      then Some(c.(open := c.open + {i}, used := c.used + {i})) else None
    case FDelta(i, _, _) =>
      if c.phase == Streaming && i in c.open then Some(c) else None
    case FBlockStop(i) =>
      if c.phase == Streaming && i in c.open then Some(c.(open := c.open - {i})) else None
    case FMessageDelta(_, _) =>
      if c.phase == Streaming && c.open == {} then Some(c.(phase := Finishing)) else None
    case FMessageStop =>
      if c.phase == Finishing then Some(c.(phase := Finished)) else None
    case FPing => Some(c)
    case FError(_) =>
      if c.phase != Finished && c.phase != Broken && c.open == {} then Some(c.(phase := Broken)) else None
  }

  function Follow(c: Client, fs: seq<Frame>): Option<Client>
    decreases fs
  {
    if fs == [] then Some(c)
    else match Accept(c, fs[0])
      case None => None
      case Some(next) => Follow(next, fs[1..])
  }

  lemma {:induction false} FollowConcat(c: Client, a: seq<Frame>, b: seq<Frame>)
    ensures Follow(c, a + b) == match Follow(c, a) case None => None case Some(mid) => Follow(mid, b)
    decreases a
  {
    if a == [] {
      assert a + b == b;
    } else {
      assert (a + b)[0] == a[0] && (a + b)[1..] == a[1..] + b;
      match Accept(c, a[0])
      case None =>
      case Some(next) => FollowConcat(next, a[1..], b);
    }
  }

  lemma FollowOne(c: Client, f: Frame)
    ensures Follow(c, [f]) == Accept(c, f)
  {
    match Accept(c, f)
    case None =>
    case Some(next) => assert [f][1..] == [];
  }

  /** The stream is over for the client: a regular end, or an error frame, with every block
      stopped. */
  predicate Over(c: Option<Client>) {
    c.Some? && c.value.open == {} && (c.value.phase == Finished || c.value.phase == Broken)
  }

  // ----- the encoder knows where its client is -----

  function Members(order: seq<int>): set<int> { set i | i in order }

  function Seen(s: State): Client {
    Client(
      if s.errored then Broken else if s.stopped then Finished else if s.sentDelta then Finishing
      else if s.started then Streaming else Waiting,
      s.open, Members(s.order))
  }

  ghost predicate Sound(s: State) {
    && s.open <= Members(s.order) && s.pending <= s.open
    && (s.errored || s.stopped || s.sentDelta ==> s.open == {})
    && (!s.started ==> s.order == [] && !s.sentDelta)
    && (s.stopped ==> s.sentDelta)
  }

  /** The event would start block `index`, and it is too late or the index is spent. */
  predicate Late(s: State, index: int) { s.sentDelta || index in s.order }

  /** The events the encoder turns into legal frames, told from its state and the event. */
  predicate Admissible(s: State, ev: Event, fam: Family) {
    s.errored ||
    match ev
    case BlockStart(index, block) =>
      (match OpeningOf(block, fam)
       case Refused => s.started
       case Skipped => true
       case Opened(_) => !Late(s, index))
    case TextDelta(index, _) => index in s.open || !Late(s, index)
    case ThinkingDelta(index, _) => index in s.open
    case SigDelta(index, text, from) => ForeignSignature(text, from, fam) || index in s.open
    case ToolInput(index, _) => index in s.open || s.started
    case MessageDelta(_, _, _, _, _) => !s.sentDelta
    case StreamError(_) => !s.stopped
    case _ => true
  }

  lemma StartFollows(s: State, id: string, model: string)
    requires Sound(s) && !s.errored
    ensures var step := Start(s, id, model);
      && Sound(step.next) && step.next.started && !step.next.errored && step.next.sentDelta == s.sentDelta
      && step.next.stopped == s.stopped
      && Follow(Seen(s), step.frames) == Some(Seen(step.next))
  {
    if !s.started { FollowOne(Seen(s), Start(s, id, model).frames[0]); }
  }

  lemma CloseFollows(s: State, index: int)
    requires Sound(s) && !s.errored && s.started && index in s.open
    ensures var step := Close(s, index);
      Sound(step.next) && Follow(Seen(s), step.frames) == Some(Seen(step.next))
  {
    var pad := if index in s.pending then [FDelta(index, DeltaInputJson, "{}")] else [];
    if index in s.pending { FollowOne(Seen(s), pad[0]); }
    FollowOne(Seen(s), FBlockStop(index));
    FollowConcat(Seen(s), pad, [FBlockStop(index)]);
  }

  lemma {:induction false} CloseEachFollows(s: State, order: seq<int>)
    requires Sound(s) && !s.errored && (s.started || order == [])
    ensures var step := CloseEach(s, order);
      && Sound(step.next) && Follow(Seen(s), step.frames) == Some(Seen(step.next))
      && step.next == s.(open := s.open - Members(order), pending := step.next.pending)
    decreases order
  {
    if order == [] {
    } else {
      var rest := order[1..];
      assert Members(order) == {order[0]} + Members(rest);
      if order[0] in s.open {
        var first := Close(s, order[0]);
        CloseFollows(s, order[0]);
        CloseEachFollows(first.next, rest);
        FollowConcat(Seen(s), first.frames, CloseEach(first.next, rest).frames);
      } else {
        CloseEachFollows(s, rest);
      }
    }
  }

  lemma CloseAllFollows(s: State)
    requires Sound(s) && !s.errored
    ensures var step := CloseAll(s);
      && Sound(step.next) && step.next == s.(open := {}, pending := {})
      && Follow(Seen(s), step.frames) == Some(Seen(step.next))
  {
    CloseEachFollows(s, s.order);
    assert s.open - Members(s.order) == {};
  }

  /** The heart of the matter: an event leaves encoder and client in step exactly when it is
      admissible. */
  lemma StepFollows(s: State, ev: Event, fam: Family)
    requires Sound(s)
    ensures var step := Encode(s, ev, fam);
      && (Follow(Seen(s), step.frames) == Some(Seen(step.next)) <==> Admissible(s, ev, fam))
      && (Admissible(s, ev, fam) ==> Sound(step.next))
  {
    if !s.errored {
      match ev
      case MessageStart(id, model, _, _, _, _, _) => StartFollows(s, id, model);
      case BlockStart(index, block) => StartBlockFollows(s, index, block, fam);
      case TextDelta(index, text) =>
        DeltaFollows(s.(text := s.text[index := TextSoFar(s, index) + text]), index, DeltaText, text, BlockText, fam);
      case ThinkingDelta(index, text) => DeltaFollows(s, index, DeltaThinking, text, BlockThinking, fam);
      case SigDelta(index, text, from) =>
        if !ForeignSignature(text, from, fam) { DeltaFollows(s, index, DeltaSignature, text, BlockThinking, fam); }
      case ToolInput(index, text) => DeltaFollows(s, index, DeltaInputJson, text, BlockToolUse, fam);
      case CitationDelta(index, cs) =>
        if index in s.open { CitationsFollow(Seen(s), index, TextSoFar(s, index), cs); }
      case BlockStop(index) => if index in s.open { CloseFollows(s, index); }
      case MessageDelta(reason, sequence, _, _, _) => ConcludeFollows(s, reason, sequence);
      case MessageStop => StopFollows(s);
      case Ping => FollowOne(Seen(s), FPing);
      case StreamError(message) => ErrorFollows(s, message);
    }
  }

  lemma StartBlockFollows(s: State, index: int, block: Option<Block>, fam: Family)
    requires Sound(s) && !s.errored
    ensures var step := StartBlock(s, index, block, fam);
      && (Follow(Seen(s), step.frames) == Some(Seen(step.next)) <==> Admissible(s, BlockStart(index, block), fam))
      && (Admissible(s, BlockStart(index, block), fam) ==> Sound(step.next))
      && (OpeningOf(block, fam).Opened? && Late(s, index) ==> Follow(Seen(s), step.frames) == None)
  {
    StartFollows(s, "", "");
    var begun := Start(s, "", "");
    match OpeningOf(block, fam)
    case Refused =>
    case Skipped =>
    case Opened(wireType) =>
      var step := StartBlock(s, index, block, fam);
      FollowConcat(Seen(s), begun.frames, [FBlockStart(index, wireType)]);
      FollowOne(Seen(begun.next), FBlockStart(index, wireType));
      if !Late(s, index) { assert Members(s.order + [index]) == Members(s.order) + {index}; }
  }

  lemma DeltaFollows(s: State, index: int, kind: DeltaKind, text: string, blank: BlockKind, fam: Family)
    requires Sound(s) && !s.errored && (blank == BlockText || blank == BlockThinking || blank == BlockToolUse)
    ensures var step := Delta(s, index, kind, text, blank, fam);
      var fine := index in s.open || (blank == BlockText && !Late(s, index)) || (blank == BlockToolUse && s.started);
      && (Follow(Seen(s), step.frames) == Some(Seen(step.next)) <==> fine)
      && (fine ==> Sound(step.next))
  {
    FollowOne(Seen(s), FDelta(index, kind, text));
    if index !in s.open {
      var blankBlock := Some(EmptyBlock(blank));
      StartBlockFollows(s, index, blankBlock, fam);
      var begun := StartBlock(s, index, blankBlock, fam);
      if !begun.failed {
        FollowConcat(Seen(s), begun.frames, [FDelta(index, kind, text)]);
        FollowOne(Seen(begun.next), FDelta(index, kind, text));
      }
    }
  }

  lemma {:induction false} CitationsFollow(c: Client, index: int, text: string, cs: seq<Citation>)
    requires c.phase == Streaming && index in c.open
    ensures Follow(c, CitationFrames(index, text, cs)) == Some(c)
  {
    if cs == [] {
    } else {
      var front := CitationFrames(index, text, cs[..|cs| - 1]);
      CitationsFollow(c, index, text, cs[..|cs| - 1]);
      var frames := CitationFrames(index, text, cs);
      var one := frames[|front|..];
      assert frames == front + one;
      FollowConcat(c, front, one);
      if one != [] { FollowOne(c, one[0]); assert one == [one[0]]; }
    }
  }

  /** Starting if need be, then closing every block. */
  lemma QuietFollows(s: State)
    requires Sound(s) && !s.errored
    ensures var begun := Start(s, "", "");
      var closed := CloseAll(begun.next);
      && Sound(closed.next) && closed.next == s.(started := true, open := {}, pending := {})
      && Follow(Seen(s), begun.frames + closed.frames) == Some(Seen(closed.next))
  {
    var begun := Start(s, "", "");
    StartFollows(s, "", "");
    CloseAllFollows(begun.next);
    FollowConcat(Seen(s), begun.frames, CloseAll(begun.next).frames);
  }

  lemma ConcludeFollows(s: State, reason: StopReason, sequence: string)
    requires Sound(s) && !s.errored
    ensures var step := Conclude(s, reason, sequence);
      && (Follow(Seen(s), step.frames) == Some(Seen(step.next)) <==> !s.sentDelta)
      && Sound(step.next)
  {
    QuietFollows(s);
    var begun := Start(s, "", "");
    var closed := CloseAll(begun.next);
    FollowConcat(Seen(s), begun.frames + closed.frames, [MessageDeltaFrame(reason, sequence)]);
    FollowOne(Seen(closed.next), MessageDeltaFrame(reason, sequence));
  }

  lemma StopFollows(s: State)
    requires Sound(s) && !s.errored
    ensures var step := Stop(s);
      && Follow(Seen(s), step.frames) == Some(Seen(step.next))
      && Sound(step.next) && step.next.stopped
  {
    if !s.stopped {
      QuietFollows(s);
      var begun := Start(s, "", "");
      var closed := CloseAll(begun.next);
      var quiet, delta := begun.frames + closed.frames, MessageDeltaFrame(StopEndTurn, "");
      var concluded := closed.next.(sentDelta := true);
      if s.sentDelta {
        assert Stop(s).frames == quiet + [FMessageStop];
        FollowConcat(Seen(s), quiet, [FMessageStop]);
      } else {
        FollowConcat(Seen(s), quiet, [delta]);
        FollowOne(Seen(closed.next), delta);
        FollowConcat(Seen(s), quiet + [delta], [FMessageStop]);
      }
      FollowOne(Seen(concluded), FMessageStop);
    }
  }

  lemma ErrorFollows(s: State, message: string)
    requires Sound(s) && !s.errored
    ensures var step := Encode(s, StreamError(message), Family(_ => false, _ => None));
      && (Follow(Seen(s), step.frames) == Some(Seen(step.next)) <==> !s.stopped)
      && Sound(step.next)
  {
    var closed := CloseAll(s);
    CloseAllFollows(s);
    FollowConcat(Seen(s), closed.frames, [FError(message)]);
    FollowOne(Seen(closed.next), FError(message));
  }

  // ----- whole streams -----

  /** Everything written while encoding `evs`, in order. */
  function EncodeAll(s: State, evs: seq<Event>, fam: Family): Step {
    if evs == [] then Step(s, [], false)
    else
      var front := EncodeAll(s, evs[..|evs| - 1], fam);
      var last := Encode(front.next, evs[|evs| - 1], fam);
      Step(last.next, front.frames + last.frames, front.failed || last.failed)
  }

  lemma EncodedMore(s: State, evs: seq<Event>, ev: Event, fam: Family)
    ensures var front := EncodeAll(s, evs, fam);
      var last := Encode(front.next, ev, fam);
      EncodeAll(s, evs + [ev], fam) == Step(last.next, front.frames + last.frames, front.failed || last.failed)
  {
    assert (evs + [ev])[..|evs + [ev]| - 1] == evs;
  }

  predicate AllAdmissible(s: State, evs: seq<Event>, fam: Family) {
    forall k :: 0 <= k < |evs| ==> AdmissibleAt(s, evs, k, fam)
  }

  predicate AdmissibleAt(s: State, evs: seq<Event>, k: nat, fam: Family)
    requires k < |evs|
  {
    Admissible(EncodeAll(s, evs[..k], fam).next, evs[k], fam)
  }

  lemma AdmissiblePrefix(s: State, evs: seq<Event>, fam: Family)
    requires evs != []
    ensures var n := |evs| - 1;
      AllAdmissible(s, evs, fam)
      <==> AllAdmissible(s, evs[..n], fam) && Admissible(EncodeAll(s, evs[..n], fam).next, evs[n], fam)
  {
    var n := |evs| - 1;
    forall k | 0 <= k < n ensures AdmissibleAt(s, evs[..n], k, fam) <==> AdmissibleAt(s, evs, k, fam) {
      assert evs[..n][..k] == evs[..k];
    }
    assert AllAdmissible(s, evs, fam) ==> AdmissibleAt(s, evs, n, fam);
  }

  lemma {:induction false} StreamFollows(evs: seq<Event>, fam: Family)
    requires AllAdmissible(FRESH, evs, fam)
    ensures var run := EncodeAll(FRESH, evs, fam);
      Sound(run.next) && Follow(NEW_CLIENT, run.frames) == Some(Seen(run.next))
  {
    if evs == [] {
      assert Seen(FRESH) == NEW_CLIENT;
    } else {
      var n := |evs| - 1;
      AdmissiblePrefix(FRESH, evs, fam);
      StreamFollows(evs[..n], fam);
      var front := EncodeAll(FRESH, evs[..n], fam);
      StepFollows(front.next, evs[n], fam);
      FollowConcat(NEW_CLIENT, front.frames, Encode(front.next, evs[n], fam).frames);
    }
  }

  /** The bytes of a whole response: whatever arrived, then `Finish`. */
  function Transcript(evs: seq<Event>, fam: Family): seq<Frame> {
    var run := EncodeAll(FRESH, evs, fam);
    run.frames + Finish(run.next).frames
  }

  /** Wherever the upstream breaks off, `Finish` completes the word: one `message_start`
      first, every block stopped once, one `message_delta`, `message_stop` last; or an error
      frame last. */
  lemma EveryStreamIsCompleted(evs: seq<Event>, fam: Family)
    requires AllAdmissible(FRESH, evs, fam)
    ensures Over(Follow(NEW_CLIENT, Transcript(evs, fam)))
  {
    var run := EncodeAll(FRESH, evs, fam);
    StreamFollows(evs, fam);
    FollowConcat(NEW_CLIENT, run.frames, Finish(run.next).frames);
    if !run.next.stopped && !run.next.errored { StopFollows(run.next); }
  }

  // ----- nothing weaker would do -----

  /** A client that can no longer be satisfied: it has rejected a frame, or the encoder lost
      the `message_start` when the first block it met could not be encoded. */
  ghost predicate Lost(s: State, c: Option<Client>) {
    c == None || (c.value.phase == Waiting && s.started && !s.errored)
  }

  lemma {:induction false} LostOne(c: Client, frames: seq<Frame>)
    requires c.phase == Waiting
    requires forall k :: 0 <= k < |frames| ==> !frames[k].FMessageStart? && !frames[k].FError?
    ensures var end := Follow(c, frames); end == None || end.value.phase == Waiting
    decreases frames
  {
    if frames == [] {
    } else {
      match Accept(c, frames[0])
      case None =>
      case Some(next) => LostOne(next, frames[1..]);
    }
  }

  lemma {:induction false} CloseEachFrames(s: State, order: seq<int>)
    ensures var step := CloseEach(s, order);
      && step.next.started == s.started && step.next.errored == s.errored
      && forall k :: 0 <= k < |step.frames| ==> step.frames[k].FDelta? || step.frames[k].FBlockStop?
    decreases order
  {
    if order == [] {
    } else {
      if order[0] in s.open { CloseEachFrames(Close(s, order[0]).next, order[1..]); }
      else { CloseEachFrames(s, order[1..]); }
    }
  }

  lemma {:induction false} CitationFramesAreDeltas(index: int, text: string, cs: seq<Citation>)
    ensures forall f :: f in CitationFrames(index, text, cs) ==> f.FDelta?
  {
    if cs == [] {
    } else {
      CitationFramesAreDeltas(index, text, cs[..|cs| - 1]);
    }
  }

  /** Neither a message start nor an error. */
  ghost predicate Quietly(frames: seq<Frame>) {
    forall k :: 0 <= k < |frames| ==> !frames[k].FMessageStart? && !frames[k].FError?
  }

  lemma CitationsStaySilent(s: State, index: int, cs: seq<Citation>, fam: Family)
    requires s.started && !s.errored
    ensures var step := Encode(s, CitationDelta(index, cs), fam);
      step.next.started && !step.next.errored && Quietly(step.frames)
  {
    CitationFramesAreDeltas(index, TextSoFar(s, index), cs);
    var frames := Encode(s, CitationDelta(index, cs), fam).frames;
    forall k | 0 <= k < |frames| ensures !frames[k].FMessageStart? && !frames[k].FError? {
      assert frames[k] in frames;
    }
  }

  lemma StartedStaysSilent(s: State, ev: Event, fam: Family)
    requires s.started && !s.errored && !ev.StreamError?
    ensures var step := Encode(s, ev, fam); step.next.started && !step.next.errored && Quietly(step.frames)
  {
    match ev
    case CitationDelta(index, cs) => CitationsStaySilent(s, index, cs, fam);
    case MessageStop => EndStaysSilent(s, ev, fam);
    case MessageDelta(_, _, _, _, _) => EndStaysSilent(s, ev, fam);
    case _ =>
  }

  lemma EndStaysSilent(s: State, ev: Event, fam: Family)
    requires s.started && !s.errored && (ev.MessageDelta? || ev.MessageStop?)
    ensures var step := Encode(s, ev, fam);
      step.next.started && !step.next.errored && Quietly(step.frames)
  {
    CloseEachFrames(s, s.order);
  }

  lemma LostForever(s: State, ev: Event, fam: Family, c: Option<Client>, written: seq<Frame>)
    requires Lost(s, c) && !ev.StreamError? && !s.errored && c == Follow(NEW_CLIENT, written)
    ensures var step := Encode(s, ev, fam);
      !step.next.errored && Lost(step.next, Follow(NEW_CLIENT, written + step.frames))
  {
    var step := Encode(s, ev, fam);
    FollowConcat(NEW_CLIENT, written, step.frames);
    if c == None {
      NoErrorByItself(s, ev, fam);
    } else {
      StartedStaysSilent(s, ev, fam);
      LostOne(c.value, step.frames);
    }
  }

  lemma NoErrorByItself(s: State, ev: Event, fam: Family)
    requires !s.errored && !ev.StreamError?
    ensures !Encode(s, ev, fam).next.errored
  {
    var begun := Start(s, "", "").next;
    CloseEachFrames(begun, begun.order);
  }

  /** An inadmissible event loses the client at once. */
  lemma InadmissibleLoses(s: State, ev: Event, fam: Family, written: seq<Frame>)
    requires Sound(s) && Follow(NEW_CLIENT, written) == Some(Seen(s)) && !s.errored
    requires !Admissible(s, ev, fam) && !ev.StreamError?
    ensures Lost(Encode(s, ev, fam).next, Follow(NEW_CLIENT, written + Encode(s, ev, fam).frames))
  {
    var step := Encode(s, ev, fam);
    FollowConcat(NEW_CLIENT, written, step.frames);
    StepFollows(s, ev, fam);
    match ev
    case BlockStart(index, block) => StartBlockFollows(s, index, block, fam);
    case TextDelta(index, text) =>
      InadmissibleDelta(s.(text := s.text[index := TextSoFar(s, index) + text]), index, DeltaText, text, BlockText, fam);
    case ThinkingDelta(index, text) => InadmissibleDelta(s, index, DeltaThinking, text, BlockThinking, fam);
    case SigDelta(index, text, from) => InadmissibleDelta(s, index, DeltaSignature, text, BlockThinking, fam);
    case ToolInput(index, text) =>
    case MessageDelta(reason, sequence, _, _, _) => InadmissibleConclude(s, reason, sequence);
  }

  lemma InadmissibleDelta(s: State, index: int, kind: DeltaKind, text: string, blank: BlockKind, fam: Family)
    requires Sound(s) && !s.errored && index !in s.open
    requires (blank == BlockText && Late(s, index)) || blank == BlockThinking
    ensures Follow(Seen(s), Delta(s, index, kind, text, blank, fam).frames) == None
  {
    var begun := StartBlock(s, index, Some(EmptyBlock(blank)), fam);
    StartBlockFollows(s, index, Some(EmptyBlock(blank)), fam);
    FollowConcat(Seen(s), begun.frames, [FDelta(index, kind, text)]);
    FollowOne(Seen(begun.next), FDelta(index, kind, text));
  }

  lemma InadmissibleConclude(s: State, reason: StopReason, sequence: string)
    requires Sound(s) && !s.errored && s.sentDelta
    ensures Follow(Seen(s), Conclude(s, reason, sequence).frames) == None
  {
    QuietFollows(s);
    var begun := Start(s, "", "");
    var closed := CloseAll(begun.next);
    FollowConcat(Seen(s), begun.frames + closed.frames, [MessageDeltaFrame(reason, sequence)]);
    FollowOne(Seen(closed.next), MessageDeltaFrame(reason, sequence));
  }

  lemma {:induction false} LosesAndStaysLost(evs: seq<Event>, fam: Family)
    requires !AllAdmissible(FRESH, evs, fam) && forall k :: 0 <= k < |evs| ==> !evs[k].StreamError?
    ensures var run := EncodeAll(FRESH, evs, fam);
      !run.next.errored && Lost(run.next, Follow(NEW_CLIENT, run.frames))
  {
    var n := |evs| - 1;
    AdmissiblePrefix(FRESH, evs, fam);
    var front := EncodeAll(FRESH, evs[..n], fam);
    if AllAdmissible(FRESH, evs[..n], fam) {
      StreamFollows(evs[..n], fam);
      NeverErrored(evs[..n], fam);
      InadmissibleLoses(front.next, evs[n], fam, front.frames);
      NoErrorByItself(front.next, evs[n], fam);
    } else {
      LosesAndStaysLost(evs[..n], fam);
      LostForever(front.next, evs[n], fam, Follow(NEW_CLIENT, front.frames), front.frames);
    }
  }

  lemma {:induction false} NeverErrored(evs: seq<Event>, fam: Family)
    requires forall k :: 0 <= k < |evs| ==> !evs[k].StreamError?
    ensures !EncodeAll(FRESH, evs, fam).next.errored
  {
    if evs == [] {
    } else {
      var n := |evs| - 1;
      NeverErrored(evs[..n], fam);
      NoErrorByItself(EncodeAll(FRESH, evs[..n], fam).next, evs[n], fam);
    }
  }

  /** For streams without an error event, admissibility is exactly what completeness takes. */
  lemma CompletedExactlyWhenAdmissible(evs: seq<Event>, fam: Family)
    requires forall k :: 0 <= k < |evs| ==> !evs[k].StreamError?
    ensures Over(Follow(NEW_CLIENT, Transcript(evs, fam))) <==> AllAdmissible(FRESH, evs, fam)
  {
    if AllAdmissible(FRESH, evs, fam) {
      EveryStreamIsCompleted(evs, fam);
    } else {
      var run := EncodeAll(FRESH, evs, fam);
      LosesAndStaysLost(evs, fam);
      if run.next.stopped {
        assert Transcript(evs, fam) == run.frames;
      } else {
        LostForever(run.next, MessageStop, Family(_ => false, _ => None), Follow(NEW_CLIENT, run.frames), run.frames);
      }
    }
  }

  /** Reasoning from Chat Completions, whose blocks start without a payload: the block is not
      opened, and the first piece of it is written to a block that is not there.  Whatever
      comes later, the stream is no complete message. */
  lemma ReasoningWithoutPayload(
      start: Event, index: int, text: string, later: seq<Event>, fam: Family)
    requires start.MessageStart? && forall k :: 0 <= k < |later| ==> !later[k].StreamError?
    ensures var evs := [start, BlockStart(index, Some(EmptyBlock(BlockThinking))), ThinkingDelta(index, text)] + later;
      !Over(Follow(NEW_CLIENT, Transcript(evs, fam)))
  {
    var head := [start, BlockStart(index, Some(EmptyBlock(BlockThinking)))];
    var delta := ThinkingDelta(index, text);
    var evs := head + [delta] + later;
    assert [start, BlockStart(index, Some(EmptyBlock(BlockThinking))), delta] == head + [delta];
    NothingOpened(start, index, fam);
    assert evs[..2] == head && evs[2] == delta;
    assert !AdmissibleAt(FRESH, evs, 2, fam);
    forall k | 0 <= k < |evs| ensures !evs[k].StreamError? {
      if k >= 3 { assert evs[k] == later[k - 3]; }
    }
    CompletedExactlyWhenAdmissible(evs, fam);
  }

  lemma NothingOpened(start: Event, index: int, fam: Family)
    requires start.MessageStart?
    ensures var s := EncodeAll(FRESH, [start, BlockStart(index, Some(EmptyBlock(BlockThinking)))], fam).next;
      s.open == {} && !s.errored
  {
    var block := BlockStart(index, Some(EmptyBlock(BlockThinking)));
    EncodedMore(FRESH, [], start, fam);
    assert [] + [start] == [start] && [start] + [block] == [start, block];
    EncodedMore(FRESH, [start], block, fam);
  }

  /** A stream that begins with a block the encoder refuses has lost its `message_start`.  No
      decoder begins one so. */
  lemma RefusedAtOnce(index: int, later: seq<Event>, fam: Family)
    requires forall k :: 0 <= k < |later| ==> !later[k].StreamError?
    ensures var evs := [BlockStart(index, Some(EmptyBlock(BlockOpaque)))] + later;
      !Over(Follow(NEW_CLIENT, Transcript(evs, fam)))
  {
    var evs := [BlockStart(index, Some(EmptyBlock(BlockOpaque)))] + later;
    assert evs[..0] == [];
    assert !AdmissibleAt(FRESH, evs, 0, fam);
    forall k | 0 <= k < |evs| ensures !evs[k].StreamError? {
      if k >= 1 { assert evs[k] == later[k - 1]; }
    }
    CompletedExactlyWhenAdmissible(evs, fam);
  }

  /** After an error event the encoder closes its blocks, writes the error, and falls silent:
      neither later events nor `Finish` add a frame. */
  lemma ErrorIsFinal(s: State, message: string, later: seq<Event>, fam: Family)
    requires !s.errored
    ensures var step := Encode(s, StreamError(message), fam);
      && step.frames != [] && step.frames[|step.frames| - 1] == FError(message)
      && (forall k :: 0 <= k < |step.frames| - 1 ==>
            step.frames[k].FBlockStop? || (step.frames[k].FDelta? && step.frames[k].text == "{}"))
      && EncodeAll(step.next, later, fam).frames == []
      && Finish(EncodeAll(step.next, later, fam).next).frames == []
  {
    ClosingFrames(s, s.order);
    SilentAfterError(Encode(s, StreamError(message), fam).next, later, fam);
  }

  lemma {:induction false} ClosingFrames(s: State, order: seq<int>)
    ensures forall f :: f in CloseEach(s, order).frames ==> f.FBlockStop? || (f.FDelta? && f.text == "{}")
    decreases order
  {
    if order == [] {
    } else {
      if order[0] in s.open { ClosingFrames(Close(s, order[0]).next, order[1..]); }
      else { ClosingFrames(s, order[1..]); }
    }
  }

  lemma {:induction false} SilentAfterError(s: State, later: seq<Event>, fam: Family)
    requires s.errored
    ensures EncodeAll(s, later, fam).next == s && EncodeAll(s, later, fam).frames == []
  {
    if later == [] {
    } else {
      SilentAfterError(s, later[..|later| - 1], fam);
    }
  }
}
