/** What a collected response holds, block by block, read off the events alone:
    backend/ir/aggregate.go.

    The aggregator keeps builders, fills them back and counts bytes as it goes.  Here a block is
    what its last start brought along and the deltas that came after it, and nothing else. */
module Contents {
  import opened Ir
  import opened Seqs
  import opened Aggregate
  import opened Reported

  // ----- the history of one block -----

  datatype Channel = TextChannel | ThinkingChannel | SignatureChannel | InputChannel

  /** What a block brings along when it starts. */
  function Carried(b: Block, ch: Channel): string {
    match ch
    case TextChannel => b.text
    case ThinkingChannel => if b.thinking.Some? then b.thinking.value.text else ""
    case SignatureChannel => if b.thinking.Some? then b.thinking.value.signature else ""
    case InputChannel =>
      (if b.toolUse.Some? then b.toolUse.value.input else "") +
      (if b.serverToolUse.Some? then b.serverToolUse.value.input else "")
  }

  /** What an event adds to a channel of its block. */
  function Brought(ev: Event, ch: Channel): string {
    if ev.TextDelta? && ch == TextChannel then ev.text
    else if ev.ThinkingDelta? && ch == ThinkingChannel then ev.text
    else if ev.SigDelta? && ch == SignatureChannel then ev.text
    else if ev.ToolInput? && ch == InputChannel then ev.text
    else ""
  }

  function AllBrought(evs: seq<Event>, ch: Channel): string {
    if evs == [] then "" else AllBrought(evs[..|evs| - 1], ch) + Brought(evs[|evs| - 1], ch)
  }

  /** The kind of block a delta belongs to, in case nobody started one. */
  function FittingKind(ev: Event): BlockKind {
    if ev.TextDelta? then BlockText else if ev.ToolInput? then BlockToolUse else BlockThinking
  }

  predicate Concerns(ev: Event, i: int) {
    (ev.BlockStart? || ev.TextDelta? || ev.ThinkingDelta? || ev.SigDelta? || ev.ToolInput? || ev.CitationDelta?)
    && ev.index == i
  }

  /** How a block came about: as what it started, and what it was given since. */
  datatype Life = Life(start: Block, since: seq<Event>)

  function LifeAfter(was: Option<Life>, ev: Event): Option<Life> {
    if ev.BlockStart? then Some(Life(if ev.block.Some? then ev.block.value else EmptyBlock(BlockText), []))
    else if was.Some? then Some(was.value.(since := was.value.since + [ev]))
    else if ev.CitationDelta? then None
    else Some(Life(EmptyBlock(FittingKind(ev)), [ev]))
  }

  function LifeOf(evs: seq<Event>, i: int): Option<Life> {
    if evs == [] then None
    else
      var was, ev := LifeOf(evs[..|evs| - 1], i), evs[|evs| - 1];
      if Concerns(ev, i) then LifeAfter(was, ev) else was
  }

  // ----- what a block then holds -----

  function Heard(life: Life, ch: Channel): string { Carried(life.start, ch) + AllBrought(life.since, ch) }

  predicate Thinks(evs: seq<Event>) { exists k :: 0 <= k < |evs| && (evs[k].ThinkingDelta? || evs[k].SigDelta?) }

  predicate TakesInput(evs: seq<Event>) { exists k :: 0 <= k < |evs| && evs[k].ToolInput? }

  /** Where the signature comes from: the last origin told since the start, or that of the start. */
  function Origin(evs: seq<Event>, otherwise: string): string {
    if evs == [] then otherwise
    else
      var ev := evs[|evs| - 1];
      if ev.SigDelta? && ev.signatureFrom != "" then ev.signatureFrom else Origin(evs[..|evs| - 1], otherwise)
  }

  predicate CitesSince(evs: seq<Event>, c: Citation) {
    exists k :: 0 <= k < |evs| && evs[k].CitationDelta? && Cited(evs[k].citations, c)
  }

  predicate AnyCitations(evs: seq<Event>) { exists k :: 0 <= k < |evs| && evs[k].CitationDelta? }

  /** Nothing but what is collected differs from the block that started. */
  ghost predicate KeepsTheRest(b: Block, s: Block) {
    && b.(text := s.text, thinking := s.thinking, toolUse := s.toolUse,
          serverToolUse := s.serverToolUse, citations := s.citations) == s
    && ThinkingOf(b).(text := "", signature := "", signatureFrom := "")
         == ThinkingOf(s).(text := "", signature := "", signatureFrom := "")
    && ToolUseOf(b).(input := "", inputText := "") == ToolUseOf(s).(input := "", inputText := "")
    && ServerToolUseOf(b).(input := "") == ServerToolUseOf(s).(input := "")
  }

  /** Payloads are there if they were there at the start or a delta needed them since. */
  ghost predicate HasPayloads(b: Block, life: Life) {
    && (b.thinking.Some? <==> life.start.thinking.Some? || Thinks(life.since))
    && (b.toolUse.Some? <==>
          life.start.toolUse.Some? || (life.start.kind != BlockServerToolUse && TakesInput(life.since)))
    && (b.serverToolUse.Some? <==>
          life.start.serverToolUse.Some? || (life.start.kind == BlockServerToolUse && TakesInput(life.since)))
    && ThinkingOf(b).signatureFrom == Origin(life.since, ThinkingOf(life.start).signatureFrom)
  }

  /** Each source once, and all of them. */
  ghost predicate CitesAll(b: Block, life: Life) {
    && (forall c :: Cited(b.citations, c) <==> Cited(life.start.citations, c) || CitesSince(life.since, c))
    && (if AnyCitations(life.since) then AllDifferent(b.citations) else b.citations == life.start.citations)
  }

  ghost predicate Frame(b: Block, life: Life) {
    KeepsTheRest(b, life.start) && HasPayloads(b, life) && CitesAll(b, life)
  }

  predicate Holds(b: Block, life: Life, proj: Projection) {
    && b.text == Heard(life, TextChannel)
    && (b.thinking.Some? ==>
          && b.thinking.value.text == Heard(life, ThinkingChannel)
          && b.thinking.value.signature == Heard(life, SignatureChannel))
    && (b.toolUse.Some? ==>
          var u, input := b.toolUse.value, Heard(life, InputChannel);
          if u.kind == ToolCustom then u.inputText == input && u.input == proj(input) else u.input == input)
    && (b.serverToolUse.Some? ==> b.serverToolUse.value.input == Heard(life, InputChannel))
  }

  // ----- the builders keep up -----

  predicate Builds(x: Acc, life: Life) {
    && x.text == Heard(life, TextChannel) && x.thinking == Heard(life, ThinkingChannel)
    && x.sig == Heard(life, SignatureChannel) && x.input == Heard(life, InputChannel)
  }

  ghost predicate LivesAt(a: Agg, evs: seq<Event>, i: int) {
    && (i in a.blocks <==> LifeOf(evs, i).Some?) && (i in a.accs <==> i in a.blocks)
    && (i in a.blocks ==> Frame(a.blocks[i], LifeOf(evs, i).value) && Builds(a.accs[i], LifeOf(evs, i).value))
  }

  ghost predicate Lives(a: Agg, evs: seq<Event>) { forall i :: LivesAt(a, evs, i) }

  lemma HeardMore(life: Life, ev: Event, ch: Channel)
    ensures Heard(life.(since := life.since + [ev]), ch) == Heard(life, ch) + Brought(ev, ch)
  {
    assert (life.since + [ev])[..|life.since|] == life.since;
    Associate(Carried(life.start, ch), AllBrought(life.since, ch), Brought(ev, ch));
  }

  lemma BuildsMore(x: Acc, life: Life, ev: Event)
    requires Builds(x, life) && IsDelta(ev)
    ensures Builds(Grow(x, ev), life.(since := life.since + [ev]))
  {
    HeardMore(life, ev, TextChannel);
    HeardMore(life, ev, ThinkingChannel);
    HeardMore(life, ev, SignatureChannel);
    HeardMore(life, ev, InputChannel);
    ConcatNothing(x.text);
    ConcatNothing(x.thinking);
    ConcatNothing(x.sig);
    ConcatNothing(x.input);
  }

  lemma BuildsAtStart(b: Block)
    ensures Builds(SeedAcc(b), Life(b, []))
  {
    var life := Life(b, []);
    ConcatNothing(Carried(b, TextChannel));
    ConcatNothing(Carried(b, ThinkingChannel));
    ConcatNothing(Carried(b, SignatureChannel));
    ConcatNothing(Carried(b, InputChannel));
  }

  lemma SinceMore(since: seq<Event>, ev: Event)
    ensures Thinks(since + [ev]) <==> Thinks(since) || ev.ThinkingDelta? || ev.SigDelta?
    ensures TakesInput(since + [ev]) <==> TakesInput(since) || ev.ToolInput?
    ensures AnyCitations(since + [ev]) <==> AnyCitations(since) || ev.CitationDelta?
    ensures forall c :: CitesSince(since + [ev], c)
                   <==> CitesSince(since, c) || (ev.CitationDelta? && Cited(ev.citations, c))
  {
    var more := since + [ev];
    assert more[|since|] == ev && forall k :: 0 <= k < |since| ==> more[k] == since[k];
    forall c | true
      ensures CitesSince(more, c) <==> CitesSince(since, c) || (ev.CitationDelta? && Cited(ev.citations, c))
    {
      if CitesSince(since, c) {
        var k :| 0 <= k < |since| && since[k].CitationDelta? && Cited(since[k].citations, c);
        assert more[k] == since[k];
      }
    }
    if Thinks(since) {
      var k :| 0 <= k < |since| && (since[k].ThinkingDelta? || since[k].SigDelta?);
      assert more[k] == since[k];
    }
    if TakesInput(since) {
      var k :| 0 <= k < |since| && since[k].ToolInput?;
      assert more[k] == since[k];
    }
    if AnyCitations(since) {
      var k :| 0 <= k < |since| && since[k].CitationDelta?;
      assert more[k] == since[k];
    }
  }

  lemma FrameAtStart(b: Block)
    ensures Frame(b, Life(b, []))
  {}

  lemma TouchKeepsTheRest(b: Block, s: Block, ev: Event)
    requires KeepsTheRest(b, s) && IsDelta(ev)
    ensures KeepsTheRest(Touch(b, ev), s)
  {}

  lemma TouchSupplies(b: Block, life: Life, ev: Event)
    requires Frame(b, life) && IsDelta(ev)
    ensures HasPayloads(Touch(b, ev), life.(since := life.since + [ev]))
  {
    SinceMore(life.since, ev);
    assert (life.since + [ev])[..|life.since|] == life.since;
  }

  lemma FrameMore(b: Block, life: Life, ev: Event)
    requires Frame(b, life) && IsDelta(ev)
    ensures Frame(Touch(b, ev), life.(since := life.since + [ev]))
  {
    TouchKeepsTheRest(b, life.start, ev);
    TouchSupplies(b, life, ev);
    SinceMore(life.since, ev);
  }

  lemma CitedConcat(a: seq<Citation>, b: seq<Citation>, c: Citation)
    ensures Cited(a + b, c) <==> Cited(a, c) || Cited(b, c)
  {
    if Cited(a, c) {
      var k :| 0 <= k < |a| && SameCitation(a[k], c);
      assert SameCitation((a + b)[k], c);
    }
    if Cited(b, c) {
      var k :| 0 <= k < |b| && SameCitation(b[k], c);
      assert SameCitation((a + b)[|a| + k], c);
    }
  }

  lemma FrameCites(b: Block, life: Life, ev: Event)
    requires Frame(b, life) && ev.CitationDelta?
    ensures Frame(b.(citations := Dedupe(b.citations + ev.citations)), life.(since := life.since + [ev]))
  {
    SinceMore(life.since, ev);
    assert (life.since + [ev])[..|life.since|] == life.since;
    DedupeKeepsFirst(b.citations + ev.citations);
    var out := b.(citations := Dedupe(b.citations + ev.citations));
    forall c | true
      ensures Cited(out.citations, c) <==> Cited(life.start.citations, c) || CitesSince(life.since + [ev], c)
    {
      CitedConcat(b.citations, ev.citations, c);
    }
  }

  lemma FillKeepsFrame(b: Block, x: Acc, life: Life, proj: Projection)
    requires Frame(b, life)
    ensures Frame(Fill(b, x, proj), life)
  {}

  lemma FillHolds(b: Block, x: Acc, life: Life, proj: Projection)
    requires Frame(b, life) && Builds(x, life)
    ensures Holds(Fill(b, x, proj), life, proj)
  {}

  // ----- every run -----

  lemma LifeMore(evs: seq<Event>, ev: Event, i: int)
    ensures LifeOf(evs + [ev], i) == if Concerns(ev, i) then LifeAfter(LifeOf(evs, i), ev) else LifeOf(evs, i)
  {
    assert (evs + [ev])[..|evs|] == evs;
  }

  lemma StartLives(a: Agg, evs: seq<Event>, ev: Event)
    requires Lives(a, evs) && ev.BlockStart? && Add(a, ev).ledger.overflow == Fits
    ensures Lives(Add(a, ev), evs + [ev])
  {
    BuildsAtStart(StartedBlock(ev.block));
    FrameAtStart(StartedBlock(ev.block));
    forall i | true ensures LivesAt(Add(a, ev), evs + [ev], i) {
      LifeMore(evs, ev, i);
      assert LivesAt(a, evs, i);
    }
  }

  lemma DeltaMakes(a: Agg, ev: Event)
    requires IsDelta(ev) && Add(a, ev).ledger.overflow == Fits
    ensures var i, now := ev.index, Add(a, ev);
      && i in now.blocks && i in now.accs
      && now.blocks[i] == Touch(if i in a.blocks then a.blocks[i] else EmptyBlock(DeltaKind(ev)), ev)
      && now.accs[i] == Grow(if i in a.accs then a.accs[i] else EMPTY_ACC, ev)
  {}

  lemma DeltaLivesHere(a: Agg, evs: seq<Event>, ev: Event)
    requires IsDelta(ev) && LivesAt(a, evs, ev.index) && Add(a, ev).ledger.overflow == Fits
    ensures LivesAt(Add(a, ev), evs + [ev], ev.index)
  {
    var i, now := ev.index, Add(a, ev);
    LifeMore(evs, ev, i);
    DeltaMakes(a, ev);
    if i in a.blocks {
      var life := LifeOf(evs, i).value;
      BuildsMore(a.accs[i], life, ev);
      FrameMore(a.blocks[i], life, ev);
      assert Frame(now.blocks[i], life.(since := life.since + [ev]));
    } else {
      DeltaOpens(ev);
      assert Frame(now.blocks[i], Life(EmptyBlock(FittingKind(ev)), [ev]));
    }
  }

  lemma DeltaOpens(ev: Event)
    requires IsDelta(ev)
    ensures var life := Life(EmptyBlock(FittingKind(ev)), [ev]);
      Frame(Touch(EmptyBlock(DeltaKind(ev)), ev), life) && Builds(Grow(EMPTY_ACC, ev), life)
  {
    var b := EmptyBlock(FittingKind(ev));
    BuildsAtStart(b);
    assert SeedAcc(b) == EMPTY_ACC by { ConcatNothing(""); }
    FrameAtStart(b);
    BuildsMore(EMPTY_ACC, Life(b, []), ev);
    FrameMore(b, Life(b, []), ev);
    assert [] + [ev] == [ev];
  }

  lemma DeltaLivesElsewhere(a: Agg, evs: seq<Event>, ev: Event, j: int)
    requires IsDelta(ev) && LivesAt(a, evs, j) && j != ev.index
    ensures LivesAt(Add(a, ev), evs + [ev], j)
  {
    LifeMore(evs, ev, j);
  }

  lemma DeltaLives(a: Agg, evs: seq<Event>, ev: Event)
    requires Lives(a, evs) && IsDelta(ev) && Add(a, ev).ledger.overflow == Fits
    ensures Lives(Add(a, ev), evs + [ev])
  {
    forall j | true ensures LivesAt(Add(a, ev), evs + [ev], j) {
      assert LivesAt(a, evs, j);
      if j == ev.index { DeltaLivesHere(a, evs, ev); } else { DeltaLivesElsewhere(a, evs, ev, j); }
    }
  }

  lemma OtherLives(a: Agg, evs: seq<Event>, ev: Event)
    requires Lives(a, evs) && !ev.BlockStart? && !IsDelta(ev)
    ensures Lives(Add(a, ev), evs + [ev])
  {
    forall i | true ensures LivesAt(Add(a, ev), evs + [ev], i) {
      LifeMore(evs, ev, i);
      assert LivesAt(a, evs, i);
      if ev.CitationDelta? && i == ev.index && i in a.blocks {
        var life := LifeOf(evs, i).value;
        FrameCites(a.blocks[i], life, ev);
        BuildsUncited(a.accs[i], life, ev);
      }
    }
  }

  lemma BuildsUncited(x: Acc, life: Life, ev: Event)
    requires Builds(x, life) && ev.CitationDelta?
    ensures Builds(x, life.(since := life.since + [ev]))
  {
    HeardMore(life, ev, TextChannel);
    HeardMore(life, ev, ThinkingChannel);
    HeardMore(life, ev, SignatureChannel);
    HeardMore(life, ev, InputChannel);
    ConcatNothing(x.text);
    ConcatNothing(x.thinking);
    ConcatNothing(x.sig);
    ConcatNothing(x.input);
  }

  lemma PeekLives(a: Agg, evs: seq<Event>, proj: Projection)
    requires Lives(a, evs)
    ensures Lives(Materialize(a, proj), evs)
  {
    forall i | true ensures LivesAt(Materialize(a, proj), evs, i) {
      assert LivesAt(a, evs, i);
      if i in a.blocks { FillKeepsFrame(a.blocks[i], a.accs[i], LifeOf(evs, i).value, proj); }
    }
  }

  lemma {:induction false} RunLives(ops: seq<Op>, proj: Projection)
    requires Run(ops, proj).ledger.overflow == Fits
    ensures Lives(Run(ops, proj), Fed(ops))
  {
    if ops == [] {
      forall i | true ensures LivesAt(NEW_AGG, [], i) {}
    } else {
      var front, op := ops[..|ops| - 1], ops[|ops| - 1];
      var a := Run(front, proj);
      match op
      case Peek =>
        RunLives(front, proj);
        PeekLives(a, Fed(front), proj);
      case Feed(ev) =>
        OverflowStays(a, ev);
        RunLives(front, proj);
        if ev.BlockStart? {
          StartLives(a, Fed(front), ev);
        } else if IsDelta(ev) {
          DeltaLives(a, Fed(front), ev);
        } else {
          OtherLives(a, Fed(front), ev);
        }
    }
  }

  /** As long as no gate trips, every block is what its last start brought along and the deltas
      after it, each in its own slot, and everything else about it is as it started. */
  lemma BlocksHoldWhatWasHeard(ops: seq<Op>, proj: Projection, i: int)
    requires Run(ops, proj).ledger.overflow == Fits
    ensures var blocks, life := Materialize(Run(ops, proj), proj).blocks, LifeOf(Fed(ops), i);
      && (i in blocks <==> life.Some?)
      && (life.Some? ==> Frame(blocks[i], life.value) && Holds(blocks[i], life.value, proj))
  {
    RunLives(ops, proj);
    var a := Run(ops, proj);
    assert LivesAt(a, Fed(ops), i);
    if i in a.blocks {
      FillKeepsFrame(a.blocks[i], a.accs[i], LifeOf(Fed(ops), i).value, proj);
      FillHolds(a.blocks[i], a.accs[i], LifeOf(Fed(ops), i).value, proj);
    }
  }

  // ----- the gates, and the order of blocks -----

  function CostOf(ev: Event): nat {
    if ev.BlockStart? then
      var b := if ev.block.Some? then ev.block.value else EmptyBlock(BlockText);
      |Carried(b, TextChannel)| + |Carried(b, ThinkingChannel)| + |Carried(b, SignatureChannel)|
      + |Carried(b, InputChannel)|
    else if IsDelta(ev) then |ev.text|
    else 0
  }

  function TotalCost(evs: seq<Event>): nat {
    if evs == [] then 0 else TotalCost(evs[..|evs| - 1]) + CostOf(evs[|evs| - 1])
  }

  /** The blocks there are, in the order in which they were first heard of. */
  function Arrivals(evs: seq<Event>): seq<int> {
    if evs == [] then []
    else
      var front, ev := Arrivals(evs[..|evs| - 1]), evs[|evs| - 1];
      if (ev.BlockStart? || IsDelta(ev)) && ev.index !in front then front + [ev.index] else front
  }

  lemma CostIsCost(ev: Event)
    ensures CostOf(ev) == Cost(ev)
  {
    if ev.BlockStart? {
      var b := StartedBlock(ev.block);
      assert |Carried(b, InputChannel)| == |SeedAcc(b).input|;
    }
  }

  /** All is let in so far, and it is `evs`. */
  predicate Admitted(a: Agg, evs: seq<Event>) {
    && a.ledger == Ledger(TotalCost(evs), Fits) && a.order == Arrivals(evs)
    && TotalCost(evs) <= MAX_CONTENT_BYTES && |Arrivals(evs)| <= MAX_BLOCKS
  }

  predicate WithinGates(evs: seq<Event>) {
    TotalCost(evs) <= MAX_CONTENT_BYTES && |Arrivals(evs)| <= MAX_BLOCKS
  }

  lemma AdmittedMore(a: Agg, evs: seq<Event>, ev: Event)
    requires Admitted(a, evs) && forall i :: i in a.order <==> i in a.blocks
    ensures if WithinGates(evs + [ev]) then Admitted(Add(a, ev), evs + [ev]) else Add(a, ev).ledger.overflow != Fits
  {
    assert (evs + [ev])[..|evs|] == evs;
    CostIsCost(ev);
  }

  lemma GatesStayTripped(evs: seq<Event>, ev: Event)
    ensures WithinGates(evs + [ev]) ==> WithinGates(evs)
  {
    assert (evs + [ev])[..|evs|] == evs;
  }

  /** A gate trips exactly when the content heard is too long or the blocks are too many; until
      then the count is what was heard, and the blocks stand in order of arrival. */
  lemma {:induction false} GatesTripExactlyWhenFull(ops: seq<Op>, proj: Projection)
    ensures var a, evs := Run(ops, proj), Fed(ops);
      && (a.ledger.overflow == Fits <==> WithinGates(evs))
      && (a.ledger.overflow == Fits ==> a.ledger.bytes == TotalCost(evs) && a.order == Arrivals(evs))
  {
    if ops == [] {
    } else {
      var front, op := ops[..|ops| - 1], ops[|ops| - 1];
      var a := Run(front, proj);
      GatesTripExactlyWhenFull(front, proj);
      RunsAreBounded(front, proj);
      if op.Feed? {
        OverflowStays(a, op.ev);
        GatesStayTripped(Fed(front), op.ev);
        if WithinGates(Fed(front)) {
          assert Admitted(a, Fed(front));
          AdmittedMore(a, Fed(front), op.ev);
        }
      }
    }
  }

  /** The content of the response: the blocks in order of arrival, each as it was heard. */
  lemma ContentIsWhatWasHeard(ops: seq<Op>, proj: Projection, k: nat)
    requires WithinGates(Fed(ops))
    ensures var content, order := ResponseOf(Run(ops, proj), proj).content, Arrivals(Fed(ops));
      && |content| == |order|
      && (k < |order| ==>
            var life := LifeOf(Fed(ops), order[k]);
            life.Some? && Frame(content[k], life.value) && Holds(content[k], life.value, proj))
  {
    var a := Run(ops, proj);
    GatesTripExactlyWhenFull(ops, proj);
    RunsAreBounded(ops, proj);
    CollectsAll(Materialize(a, proj).blocks, a.order);
    if k < |a.order| { BlocksHoldWhatWasHeard(ops, proj, a.order[k]); }
  }

  lemma {:induction false} CollectsAll(blocks: map<int, Block>, order: seq<int>)
    requires forall i :: i in order ==> i in blocks
    ensures |Collect(blocks, order)| == |order|
    ensures forall k :: 0 <= k < |order| ==> order[k] in blocks && Collect(blocks, order)[k] == blocks[order[k]]
  {
    if order == [] {
    } else {
      FrontLast(order);
      CollectsAll(blocks, order[..|order| - 1]);
    }
  }
}
