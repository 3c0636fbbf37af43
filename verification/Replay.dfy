/** Replaying a finished response as events, the inverse of aggregation:
    backend/ir/replay.go. */
module Replay {
  import opened Ir
  import opened Seqs
  import opened Aggregate
  import opened Collector

  predicate IsProse(kind: BlockKind) { kind == BlockText || kind == BlockRefusal }

  /** `splitBlock`: the block without its content, and the content as deltas. */
  function Skeleton(b: Block): Block {
    var bare := b.(citations := []);
    match b.kind
    case BlockText => bare.(text := "")
    case BlockRefusal => bare.(text := "")
    case BlockThinking =>
      if b.thinking.Some? then bare.(thinking := Some(b.thinking.value.(text := "", signature := ""))) else bare
    case BlockToolUse =>
      if b.toolUse.None? then bare
      else if b.toolUse.value.kind == ToolCustom
      then bare.(toolUse := Some(b.toolUse.value.(input := "", inputText := "")))
      else bare.(toolUse := Some(b.toolUse.value.(input := "")))
    case BlockServerToolUse =>
      if b.serverToolUse.Some? then bare.(serverToolUse := Some(b.serverToolUse.value.(input := ""))) else bare
    case _ => bare
  }

  function Unless(skip: bool, ev: Event): seq<Event> { if skip then [] else [ev] }

  /** The arguments a block sends as tool input. */
  function Arguments(b: Block): string {
    if b.kind == BlockToolUse && b.toolUse.Some? then
      if b.toolUse.value.kind == ToolCustom then b.toolUse.value.inputText else b.toolUse.value.input
    else if b.kind == BlockServerToolUse && b.serverToolUse.Some? then b.serverToolUse.value.input
    else ""
  }

  function Deltas(i: int, b: Block): seq<Event> {
    if IsProse(b.kind) then
      Unless(b.text == "", TextDelta(i, b.text)) + Unless(b.citations == [], CitationDelta(i, b.citations))
    else if b.kind == BlockThinking && b.thinking.Some? then
      var t := b.thinking.value;
      Unless(t.text == "", ThinkingDelta(i, t.text))
      + Unless(t.signature == "", SigDelta(i, t.signature, t.signatureFrom))
    else Unless(Arguments(b) == "", ToolInput(i, Arguments(b)))
  }

  function BlockEvents(i: int, b: Block): seq<Event> {
    [BlockStart(i, Some(Skeleton(b)))] + Deltas(i, b) + [BlockStop(i)]
  }

  function ContentEvents(content: seq<Block>): seq<Event> {
    if content == [] then []
    else ContentEvents(content[..|content| - 1]) + BlockEvents(|content| - 1, content[|content| - 1])
  }

  function StartEvent(r: Response): Event {
    MessageStart(r.id, r.model, r.receipts, r.audio, r.created, r.diagnostics, None)
  }

  function EndEvent(r: Response): Event {
    MessageDelta(r.stopReason, r.stopSequence, r.stopDetails, NO_RECEIPTS, Some(r.usage))
  }

  function ResponseEvents(r: Response): seq<Event> {
    [StartEvent(r)] + ContentEvents(r.content) + [EndEvent(r), MessageStop]
  }

  method Split(index: int, block: Block) returns (skeleton: Block, deltas: seq<Event>)
    ensures skeleton == Skeleton(block) && deltas == Deltas(index, block)
  {
    deltas := [];
    var cites := block.citations;
    var b := block.(citations := []);
    if b.kind == BlockText || b.kind == BlockRefusal {
      if b.text != "" {
        deltas := deltas + [TextDelta(index, b.text)];
      }
      b := b.(text := "");
      if |cites| > 0 {
        deltas := deltas + [CitationDelta(index, cites)];
      }
    } else if b.kind == BlockThinking && b.thinking.Some? {
      var t := b.thinking.value;
      if t.text != "" {
        deltas := deltas + [ThinkingDelta(index, t.text)];
      }
      if t.signature != "" {
        deltas := deltas + [SigDelta(index, t.signature, t.signatureFrom)];
      }
      b := b.(thinking := Some(t.(text := "", signature := "")));
    } else if b.kind == BlockToolUse && b.toolUse.Some? {
      var u := b.toolUse.value;
      if u.kind == ToolCustom {
        if u.inputText != "" {
          deltas := deltas + [ToolInput(index, u.inputText)];
        }
        b := b.(toolUse := Some(u.(inputText := "", input := "")));
      } else {
        if u.input != "" {
          deltas := deltas + [ToolInput(index, u.input)];
        }
        b := b.(toolUse := Some(u.(input := "")));
      }
    } else if b.kind == BlockServerToolUse && b.serverToolUse.Some? {
      var s := b.serverToolUse.value;
      if s.input != "" {
        deltas := deltas + [ToolInput(index, s.input)];
      }
      b := b.(serverToolUse := Some(s.(input := "")));
    }
    skeleton := b;
  }

  method Project(r: Response) returns (out: seq<Event>)
    ensures out == ResponseEvents(r)
  {
    out := [StartEvent(r)];
    for i := 0 to |r.content|
      invariant out == [StartEvent(r)] + ContentEvents(r.content[..i])
    {
      ContentEventsMore(r.content, i);
      var events := ProjectBlock(i, r.content[i]);
      Associate([StartEvent(r)], ContentEvents(r.content[..i]), events);
      out := out + events;
    }
    assert r.content[..|r.content|] == r.content;
    out := out + [EndEvent(r), MessageStop];
  }

  lemma ContentEventsMore(content: seq<Block>, i: nat)
    requires i < |content|
    ensures ContentEvents(content[..i + 1]) == ContentEvents(content[..i]) + BlockEvents(i, content[i])
  {
    assert content[..i + 1][..i] == content[..i];
  }

  method ProjectBlock(i: int, b: Block) returns (out: seq<Event>)
    ensures out == BlockEvents(i, b)
  {
    var skeleton, deltas := Split(i, b);
    out := [BlockStart(i, Some(skeleton))] + deltas + [BlockStop(i)];
  }

  // ----- replay, then aggregate -----

  function AddAll(a: Agg, evs: seq<Event>): Agg {
    if evs == [] then a else Add(AddAll(a, evs[..|evs| - 1]), evs[|evs| - 1])
  }

  lemma {:induction false} AddAllConcat(a: Agg, x: seq<Event>, y: seq<Event>)
    ensures AddAll(a, x + y) == AddAll(AddAll(a, x), y)
  {
    if y == [] {
      assert x + y == x;
    } else {
      assert (x + y)[..|x + y| - 1] == x + y[..|y| - 1];
      AddAllConcat(a, x, y[..|y| - 1]);
    }
  }

  lemma AddOne(a: Agg, ev: Event)
    ensures AddAll(a, [ev]) == Add(a, ev)
  {
    assert [ev][..0] == [];
  }

  lemma {:induction false} OverflowRemains(a: Agg, evs: seq<Event>)
    ensures a.ledger.overflow != Fits ==> AddAll(a, evs).ledger.overflow != Fits
  {
    if evs == [] {
    } else {
      OverflowRemains(a, evs[..|evs| - 1]);
      OverflowStays(AddAll(a, evs[..|evs| - 1]), evs[|evs| - 1]);
    }
  }

  /** What the skeleton still carries: payloads that are not of the block's kind. */
  function Seed(b: Block): Acc { SeedAcc(Skeleton(b)) }

  /** All arguments of the block, those of its kind last.  There is one builder for them. */
  function Inputs(b: Block): string { Seed(b).input + Arguments(b) }

  /** What the deltas carry. */
  function Sent(b: Block): nat {
    if IsProse(b.kind) then |b.text|
    else if b.kind == BlockThinking && b.thinking.Some? then |b.thinking.value.text| + |b.thinking.value.signature|
    else |Arguments(b)|
  }

  function Weight(b: Block): nat { FullAcc(b).Size() }

  function KeptCitations(b: Block): seq<Citation> {
    if IsProse(b.kind) then Dedupe(b.citations) else []
  }

  function FullAcc(b: Block): Acc {
    Acc(b.text, ThinkingOf(b).text, ThinkingOf(b).signature, Inputs(b))
  }

  lemma WeightSplits(b: Block)
    ensures Weight(b) == Seed(b).Size() + Sent(b)
  {}

  function Kept(b: Block): Block { Skeleton(b).(citations := KeptCitations(b)) }

  function WithContent(a: Agg, i: int, b: Block): Agg {
    a.(blocks := a.blocks[i := Kept(b)], accs := a.accs[i := FullAcc(b)],
       sawInput := a.sawInput + (if Arguments(b) != "" then {i} else {}),
       ledger := a.ledger.(bytes := a.ledger.bytes + Sent(b)))
  }

  function Begun(a: Agg, i: int, b: Block): Agg {
    a.(blocks := a.blocks[i := Skeleton(b)], order := a.order + [i], accs := a.accs[i := Seed(b)],
       ledger := a.ledger.(bytes := a.ledger.bytes + Seed(b).Size()))
  }

  function AfterBlock(a: Agg, i: int, b: Block): Agg {
    a.(blocks := a.blocks[i := Kept(b)], order := a.order + [i], accs := a.accs[i := FullAcc(b)],
       closed := a.closed + {i}, sawInput := a.sawInput + (if Arguments(b) != "" then {i} else {}),
       ledger := a.ledger.(bytes := a.ledger.bytes + Weight(b)))
  }

  /** Block `i` has started, and its deltas are to come. */
  ghost predicate Ready(a: Agg, i: int, b: Block) {
    && i in a.blocks && a.blocks[i] == Skeleton(b) && i in a.accs && a.accs[i] == Seed(b)
    && a.ledger.overflow == Fits && a.ledger.bytes <= MAX_CONTENT_BYTES
  }

  /** The content of block `i` gets in exactly when it fits, and then whole. */
  ghost predicate Lands(a: Agg, out: Agg, i: int, b: Block) {
    && (out.ledger.overflow == Fits <==> a.ledger.bytes + Sent(b) <= MAX_CONTENT_BYTES)
    && (out.ledger.overflow == Fits ==> out == WithContent(a, i, b))
  }

  /** One more delta on block `i`, as long as the gate holds. */
  lemma OneDelta(a: Agg, skip: bool, ev: Event)
    requires IsDelta(ev) || ev.CitationDelta?
    requires ev.index in a.blocks && a.ledger.overflow == Fits && a.ledger.bytes <= MAX_CONTENT_BYTES
    ensures var out := AddAll(a, Unless(skip, ev));
      && (out.ledger.overflow == Fits <==> skip || a.ledger.bytes + Cost(ev) <= MAX_CONTENT_BYTES)
      && (out.ledger.overflow == Fits ==> out == if skip then a else Effect(a, ev))
      && out.ledger.bytes <= MAX_CONTENT_BYTES
  {
    if !skip {
      AddOne(a, ev);
      AcceptedEffect(a, ev);
      OverflowStays(a, ev);
    }
  }

  function Price(skip: bool, ev: Event): nat { if skip then 0 else Cost(ev) }

  /** Two deltas in a row, by way of `mid`. */
  lemma TwoDeltas(a: Agg, skip: bool, ev: Event, skip': bool, ev': Event, mid: Agg, end: Agg)
    requires (IsDelta(ev) || ev.CitationDelta?) && (IsDelta(ev') || ev'.CitationDelta?)
    requires ev.index in a.blocks && a.ledger.overflow == Fits && a.ledger.bytes <= MAX_CONTENT_BYTES
    requires mid == (if skip then a else Effect(a, ev)) && ev'.index in mid.blocks
    requires end == if skip' then mid else Effect(mid, ev')
    ensures var out := AddAll(a, Unless(skip, ev) + Unless(skip', ev'));
      && (out.ledger.overflow == Fits <==> a.ledger.bytes + Price(skip, ev) + Price(skip', ev') <= MAX_CONTENT_BYTES)
      && (out.ledger.overflow == Fits ==> out == end)
  {
    AddAllConcat(a, Unless(skip, ev), Unless(skip', ev'));
    OneDelta(a, skip, ev);
    var first := AddAll(a, Unless(skip, ev));
    OverflowRemains(first, Unless(skip', ev'));
    if first.ledger.overflow == Fits { OneDelta(mid, skip', ev'); }
  }

  lemma StartsSeeded(a: Agg, i: int, b: Block)
    requires i !in a.blocks && a.ledger.overflow == Fits && a.ledger.bytes <= MAX_CONTENT_BYTES
    ensures var out := Add(a, BlockStart(i, Some(Skeleton(b))));
      && (out.ledger.overflow == Fits <==> |a.order| < MAX_BLOCKS && a.ledger.bytes + Seed(b).Size() <= MAX_CONTENT_BYTES)
      && (out.ledger.overflow == Fits ==> out == Begun(a, i, b))
  {}

  lemma SameEffects(a: Agg, i: int)
    requires i in a.blocks && i in a.accs
    ensures a.blocks[i := a.blocks[i]] == a.blocks && a.accs[i := a.accs[i]] == a.accs
    ensures a.sawInput + {} == a.sawInput && a.closed + {} == a.closed
  {}

  /** Block `i` with its text in, and not yet its citations. */
  function Worded(a: Agg, i: int, b: Block): Agg {
    a.(accs := a.accs[i := FullAcc(b)], ledger := a.ledger.(bytes := a.ledger.bytes + |b.text|))
  }

  lemma TextLands(a: Agg, i: int, b: Block)
    requires Ready(a, i, b) && IsProse(b.kind)
    ensures (if b.text == "" then a else Effect(a, TextDelta(i, b.text))) == Worded(a, i, b)
  {
    ConcatNothing(b.text);
    ConcatNothing(Seed(b).input);
    SameEffects(a, i);
  }

  lemma CitesLand(a: Agg, i: int, b: Block)
    requires Ready(a, i, b) && IsProse(b.kind)
    ensures var mid := Worded(a, i, b);
      (if b.citations == [] then mid else Effect(mid, CitationDelta(i, b.citations))) == WithContent(a, i, b)
  {
    ConcatNothing(b.citations);
    SameEffects(a, i);
    SameEffects(Worded(a, i, b), i);
  }

  lemma ProseReplayed(a: Agg, i: int, b: Block)
    requires Ready(a, i, b) && IsProse(b.kind)
    ensures Lands(a, AddAll(a, Deltas(i, b)), i, b)
  {
    TextLands(a, i, b);
    CitesLand(a, i, b);
    TwoDeltas(a, b.text == "", TextDelta(i, b.text), b.citations == [], CitationDelta(i, b.citations),
              Worded(a, i, b), WithContent(a, i, b));
  }

  /** Block `i` with its reasoning text in, and not yet its signature. */
  function Thought(a: Agg, i: int, b: Block, text: string): Agg {
    a.(accs := a.accs[i := Seed(b).(thinking := text)], ledger := a.ledger.(bytes := a.ledger.bytes + |text|))
  }

  lemma ThoughtLands(a: Agg, i: int, b: Block)
    requires Ready(a, i, b) && b.kind == BlockThinking && b.thinking.Some?
    ensures var t := b.thinking.value.text;
      (if t == "" then a else Effect(a, ThinkingDelta(i, t))) == Thought(a, i, b, t)
  {
    var t := b.thinking.value.text;
    ConcatNothing(t);
    assert Touch(Skeleton(b), ThinkingDelta(i, t)) == Skeleton(b);
    SameEffects(a, i);
  }

  lemma SignatureLands(a: Agg, i: int, b: Block)
    requires Ready(a, i, b) && b.kind == BlockThinking && b.thinking.Some?
    ensures var t := b.thinking.value;
      var mid := Thought(a, i, b, t.text);
      (if t.signature == "" then mid else Effect(mid, SigDelta(i, t.signature, t.signatureFrom))) == WithContent(a, i, b)
  {
    var t := b.thinking.value;
    var mid := Thought(a, i, b, t.text);
    ConcatNothing(t.signature);
    ConcatNothing(Seed(b).input);
    assert Touch(Skeleton(b), SigDelta(i, t.signature, t.signatureFrom)) == Skeleton(b) == Kept(b);
    SameEffects(mid, i);
    SameEffects(a, i);
    assert mid.accs[i := FullAcc(b)] == a.accs[i := FullAcc(b)];
  }

  lemma ThinkingReplayed(a: Agg, i: int, b: Block)
    requires Ready(a, i, b) && b.kind == BlockThinking && b.thinking.Some?
    ensures Lands(a, AddAll(a, Deltas(i, b)), i, b)
  {
    var t := b.thinking.value;
    ThoughtLands(a, i, b);
    SignatureLands(a, i, b);
    TwoDeltas(a, t.text == "", ThinkingDelta(i, t.text), t.signature == "", SigDelta(i, t.signature, t.signatureFrom),
              Thought(a, i, b, t.text), WithContent(a, i, b));
  }

  lemma InputReplayed(a: Agg, i: int, b: Block)
    requires Ready(a, i, b) && !IsProse(b.kind) && !(b.kind == BlockThinking && b.thinking.Some?)
    ensures Lands(a, AddAll(a, Deltas(i, b)), i, b)
  {
    var input := ToolInput(i, Arguments(b));
    OneDelta(a, Arguments(b) == "", input);
    ConcatNothing(Seed(b).input);
    SameEffects(a, i);
    assert Kept(b) == Skeleton(b);
    if Arguments(b) != "" { assert Touch(Skeleton(b), input) == Skeleton(b); }
  }

  lemma DeltasReplayed(a: Agg, i: int, b: Block)
    requires Ready(a, i, b)
    ensures Lands(a, AddAll(a, Deltas(i, b)), i, b)
  {
    if IsProse(b.kind) {
      ProseReplayed(a, i, b);
    } else if b.kind == BlockThinking && b.thinking.Some? {
      ThinkingReplayed(a, i, b);
    } else {
      InputReplayed(a, i, b);
    }
  }

  lemma BlockSteps(a: Agg, i: int, b: Block)
    ensures AddAll(a, BlockEvents(i, b))
         == Add(AddAll(Add(a, BlockStart(i, Some(Skeleton(b)))), Deltas(i, b)), BlockStop(i))
  {
    var start, deltas, stop := BlockStart(i, Some(Skeleton(b))), Deltas(i, b), BlockStop(i);
    AddAllConcat(a, [start] + deltas, [stop]);
    AddAllConcat(a, [start], deltas);
    AddOne(a, start);
    AddOne(AddAll(Add(a, start), deltas), stop);
  }

  /** A replayed block passes the gates exactly when it fits, and then lands whole. */
  lemma BlockReplayed(a: Agg, i: int, b: Block)
    requires i !in a.blocks && a.ledger.overflow == Fits && a.ledger.bytes <= MAX_CONTENT_BYTES
    ensures var out := AddAll(a, BlockEvents(i, b));
      && (out.ledger.overflow == Fits <==> |a.order| < MAX_BLOCKS && a.ledger.bytes + Weight(b) <= MAX_CONTENT_BYTES)
      && (out.ledger.overflow == Fits ==> out == AfterBlock(a, i, b))
  {
    BlockSteps(a, i, b);
    StartsSeeded(a, i, b);
    WeightSplits(b);
    if |a.order| >= MAX_BLOCKS || a.ledger.bytes + Seed(b).Size() > MAX_CONTENT_BYTES {
      OverflowRemains(Add(a, BlockStart(i, Some(Skeleton(b)))), Deltas(i, b));
    } else {
      DeltasReplayed(Begun(a, i, b), i, b);
      ContentCloses(a, i, b);
    }
  }

  lemma ContentCloses(a: Agg, i: int, b: Block)
    ensures Add(WithContent(Begun(a, i, b), i, b), BlockStop(i)) == AfterBlock(a, i, b)
  {
    WeightSplits(b);
    assert a.accs[i := Seed(b)][i := FullAcc(b)] == a.accs[i := FullAcc(b)];
    assert a.blocks[i := Skeleton(b)][i := Kept(b)] == a.blocks[i := Kept(b)];
  }

  function TotalWeight(content: seq<Block>): nat {
    if content == [] then 0 else TotalWeight(content[..|content| - 1]) + Weight(content[|content| - 1])
  }

  predicate WithinGates(content: seq<Block>) {
    |content| <= MAX_BLOCKS && TotalWeight(content) <= MAX_CONTENT_BYTES
  }

  function Rebuilt(b: Block, proj: Projection): Block {
    b.(citations := KeptCitations(b),
       toolUse := if b.toolUse.Some? then Some(FillToolUse(b.toolUse.value, Inputs(b), proj)) else None,
       serverToolUse := if b.serverToolUse.Some? then Some(b.serverToolUse.value.(input := Inputs(b))) else None)
  }

  function UpTo(n: nat): (s: seq<int>)
    ensures |s| == n && forall i :: 0 <= i < n ==> s[i] == i
  {
    if n == 0 then [] else UpTo(n - 1) + [n - 1]
  }

  function RebuiltAll(content: seq<Block>, proj: Projection): (out: seq<Block>)
    ensures |out| == |content|
  {
    seq(|content|, i requires 0 <= i < |content| => Rebuilt(content[i], proj))
  }

  function AfterContent(base: Agg, content: seq<Block>): Agg {
    if content == [] then base
    else AfterBlock(AfterContent(base, content[..|content| - 1]), |content| - 1, content[|content| - 1])
  }

  /** Nothing has been collected yet. */
  ghost predicate Bare(a: Agg) {
    && a.blocks == map[] && a.order == [] && a.accs == map[] && a.sawInput == {} && a.closed == {}
    && a.ledger == Ledger(0, Fits)
  }

  ghost predicate HeldAt(a: Agg, i: int, b: Block) {
    && i in a.blocks && a.blocks[i] == Kept(b) && i in a.accs && a.accs[i] == FullAcc(b)
    && i in a.closed && (i in a.sawInput <==> Arguments(b) != "")
  }

  /** The aggregator knows the blocks below `n`. */
  ghost predicate Knows(a: Agg, n: nat) {
    && a.order == UpTo(n)
    && (forall i :: i in a.blocks ==> 0 <= i < n) && (forall i :: i in a.sawInput ==> 0 <= i < n)
  }

  lemma KnowsOneMore(a: Agg, n: nat, b: Block)
    requires Knows(a, n)
    ensures Knows(AfterBlock(a, n, b), n + 1)
  {}

  /** The aggregator holds exactly the blocks `content`, each complete. */
  ghost predicate Holds(a: Agg, content: seq<Block>) {
    && Knows(a, |content|)
    && (forall i :: 0 <= i < |content| ==> HeldAt(a, i, content[i]))
    && a.ledger == Ledger(TotalWeight(content), Fits)
  }

  lemma StillHeld(a: Agg, n: int, b: Block, i: int, c: Block)
    requires HeldAt(a, i, c) && i != n
    ensures HeldAt(AfterBlock(a, n, b), i, c)
  {}

  lemma LastHeld(a: Agg, n: int, b: Block)
    requires n !in a.sawInput
    ensures HeldAt(AfterBlock(a, n, b), n, b)
  {}

  lemma HoldsOneMore(a: Agg, content: seq<Block>)
    requires content != [] && Holds(a, content[..|content| - 1])
    ensures Holds(AfterBlock(a, |content| - 1, content[|content| - 1]), content)
  {
    var n := |content| - 1;
    var front, b := content[..n], content[n];
    var a' := AfterBlock(a, n, b);
    LastHeld(a, n, b);
    KnowsOneMore(a, n, b);
    forall i | 0 <= i < n ensures HeldAt(a', i, content[i]) {
      assert HeldAt(a, i, front[i]);
      StillHeld(a, n, b, i, front[i]);
    }
  }

  lemma {:induction false} AfterContentHolds(base: Agg, content: seq<Block>)
    requires Bare(base)
    ensures Holds(AfterContent(base, content), content) && AfterContent(base, content).resp == base.resp
  {
    if content == [] {
    } else {
      AfterContentHolds(base, content[..|content| - 1]);
      HoldsOneMore(AfterContent(base, content[..|content| - 1]), content);
    }
  }

  /** The events of `content` pass the gates exactly when they fit, and then land whole. */
  ghost predicate Arrives(base: Agg, content: seq<Block>) {
    var out := AddAll(base, ContentEvents(content));
    && (out.ledger.overflow == Fits <==> WithinGates(content))
    && (WithinGates(content) ==> out == AfterContent(base, content))
  }

  lemma OneMoreBlock(base: Agg, front: seq<Block>, b: Block)
    requires Bare(base) && WithinGates(front) && Arrives(base, front)
    ensures var out := AddAll(AddAll(base, ContentEvents(front)), BlockEvents(|front|, b));
      && (out.ledger.overflow == Fits <==> |front| < MAX_BLOCKS && TotalWeight(front) + Weight(b) <= MAX_CONTENT_BYTES)
      && (out.ledger.overflow == Fits ==> out == AfterBlock(AfterContent(base, front), |front|, b))
  {
    AfterContentHolds(base, front);
    BlockReplayed(AfterContent(base, front), |front|, b);
  }

  lemma ArrivesNext(base: Agg, content: seq<Block>)
    requires Bare(base) && content != [] && Arrives(base, content[..|content| - 1])
    ensures Arrives(base, content)
  {
    var n := |content| - 1;
    var front, b := content[..n], content[n];
    var mid, events := AddAll(base, ContentEvents(front)), BlockEvents(n, b);
    assert AddAll(base, ContentEvents(content)) == AddAll(mid, events) by {
      AddAllConcat(base, ContentEvents(front), events);
    }
    if WithinGates(front) {
      OneMoreBlock(base, front, b);
    } else {
      OverflowRemains(mid, events);
    }
  }

  lemma {:induction false} ContentReplayed(base: Agg, content: seq<Block>)
    requires Bare(base)
    ensures Arrives(base, content)
  {
    if content == [] {
    } else {
      ContentReplayed(base, content[..|content| - 1]);
      ArrivesNext(base, content);
    }
  }

  lemma FilledIsRebuilt(b: Block, proj: Projection)
    ensures Fill(Kept(b), FullAcc(b), proj) == Rebuilt(b, proj)
  {}

  lemma {:induction false} CollectRange(blocks: map<int, Block>, content: seq<Block>)
    requires forall i :: 0 <= i < |content| ==> i in blocks && blocks[i] == content[i]
    ensures Collect(blocks, UpTo(|content|)) == content
  {
    if content == [] {
    } else {
      var n := |content| - 1;
      var order := UpTo(|content|);
      assert order[..n] == UpTo(n);
      CollectRange(blocks, content[..n]);
    }
  }

  function Replayed(r: Response, proj: Projection): Response {
    Concluded(r.(usage := MergeUsage(ZERO_USAGE, r.usage)), RebuiltAll(r.content, proj))
  }

  lemma ReplaySteps(r: Response)
    ensures var begun := Add(NEW_AGG, StartEvent(r));
      AddAll(NEW_AGG, ResponseEvents(r)) == Add(AddAll(begun, ContentEvents(r.content)), EndEvent(r))
  {
    var start, content, end := [StartEvent(r)], ContentEvents(r.content), [EndEvent(r), MessageStop];
    AddAllConcat(NEW_AGG, start + content, end);
    AddAllConcat(NEW_AGG, start, content);
    AddOne(NEW_AGG, StartEvent(r));
    var full := AddAll(Add(NEW_AGG, StartEvent(r)), content);
    assert AddAll(full, end) == Add(full, EndEvent(r)) by {
      assert end == [EndEvent(r)] + [MessageStop];
      AddAllConcat(full, [EndEvent(r)], [MessageStop]);
      AddOne(full, EndEvent(r));
      AddOne(Add(full, EndEvent(r)), MessageStop);
    }
  }

  lemma BeginsBare(r: Response)
    ensures Bare(Add(NEW_AGG, StartEvent(r)))
  {}

  lemma EndKeepsContent(a: Agg, r: Response)
    requires Holds(a, r.content) && a.resp == Meta(EMPTY_RESPONSE, StartEvent(r))
    ensures var out := Add(a, EndEvent(r));
      Holds(out, r.content) && out.resp == r.(content := [], usage := MergeUsage(ZERO_USAGE, r.usage))
  {
    HoldsAnyway(a, Add(a, EndEvent(r)), r.content);
    ReceiptsSurvive(r);
  }

  lemma HoldsAnyway(a: Agg, a': Agg, content: seq<Block>)
    requires Holds(a, content) && a' == a.(resp := a'.resp)
    ensures Holds(a', content)
  {
    forall i | 0 <= i < |content| ensures HeldAt(a', i, content[i]) { assert HeldAt(a, i, content[i]); }
  }

  lemma ReplayHolds(r: Response)
    requires WithinGates(r.content)
    ensures var a := AddAll(NEW_AGG, ResponseEvents(r));
      Holds(a, r.content) && a.resp == r.(content := [], usage := MergeUsage(ZERO_USAGE, r.usage))
  {
    ReplaySteps(r);
    BeginsBare(r);
    var begun := Add(NEW_AGG, StartEvent(r));
    ContentReplayed(begun, r.content);
    AfterContentHolds(begun, r.content);
    EndKeepsContent(AfterContent(begun, r.content), r);
  }

  /** What comes out when a response is replayed and aggregated again, for every response:
      an overflow exactly when it is too large, and otherwise the same response but for
      repeated and stray citations, projected custom arguments, arguments outside the slot of
      their kind, usage in normal form, and the stop reason of a response that calls tools. */
  lemma ReplayThenAggregate(r: Response, proj: Projection)
    ensures var a := AddAll(NEW_AGG, ResponseEvents(r));
      && (a.ledger.overflow == Fits <==> WithinGates(r.content))
      && (WithinGates(r.content) ==> ResponseOf(a, proj) == Replayed(r, proj))
  {
    ReplayFits(r);
    if WithinGates(r.content) {
      ReplayHolds(r);
      BlocksRebuilt(AddAll(NEW_AGG, ResponseEvents(r)), r.content, proj);
    }
  }

  lemma ReplayFits(r: Response)
    ensures AddAll(NEW_AGG, ResponseEvents(r)).ledger.overflow == Fits <==> WithinGates(r.content)
  {
    var begun := Add(NEW_AGG, StartEvent(r));
    BeginsBare(r);
    ContentReplayed(begun, r.content);
    ReplaySteps(r);
    EndCountsNothing(AddAll(begun, ContentEvents(r.content)), r);
  }

  lemma EndCountsNothing(a: Agg, r: Response)
    ensures Add(a, EndEvent(r)).ledger.overflow == a.ledger.overflow
  {}

  lemma ReceiptsSurvive(r: Response)
    ensures Meta(Meta(EMPTY_RESPONSE, StartEvent(r)), EndEvent(r))
         == r.(content := [], usage := MergeUsage(ZERO_USAGE, r.usage))
  {}

  lemma BlocksRebuilt(a: Agg, content: seq<Block>, proj: Projection)
    requires Holds(a, content)
    ensures Collect(Materialize(a, proj).blocks, a.order) == RebuiltAll(content, proj)
  {
    var blocks := Materialize(a, proj).blocks;
    forall i | 0 <= i < |content| ensures i in blocks && blocks[i] == RebuiltAll(content, proj)[i] {
      assert HeldAt(a, i, content[i]);
      FilledIsRebuilt(content[i], proj);
    }
    CollectRange(blocks, RebuiltAll(content, proj));
  }

  // ----- when nothing is lost -----

  predicate FaithfulBlock(b: Block, proj: Projection) {
    && (if IsProse(b.kind) then AllDifferent(b.citations) else b.citations == [])
    && (b.toolUse.Some? ==> b.toolUse.value == FillToolUse(b.toolUse.value, Inputs(b), proj))
    && (b.serverToolUse.Some? ==> b.serverToolUse.value.input == Inputs(b))
  }

  /** Arguments sit in the slot of the block's kind only. */
  predicate Typed(b: Block) {
    (b.toolUse.Some? ==> b.kind == BlockToolUse) && (b.serverToolUse.Some? ==> b.kind == BlockServerToolUse)
  }

  /** Then only two things can be lost: citations that are repeated or stray, and a custom
      call's arguments that are not the projection of its text. */
  lemma TypedIsFaithful(b: Block, proj: Projection)
    requires Typed(b)
    ensures FaithfulBlock(b, proj) <==>
      && (if IsProse(b.kind) then AllDifferent(b.citations) else b.citations == [])
      && (b.toolUse.Some? && b.toolUse.value.kind == ToolCustom ==> b.toolUse.value.input == proj(b.toolUse.value.inputText))
  {
    ConcatNothing(Arguments(b));
  }

  predicate Faithful(r: Response, proj: Projection) {
    && NormalUsage(r.usage)
    && (forall b :: b in r.content ==> FaithfulBlock(b, proj))
    && (HasToolUse(r.content) ==> r.stopReason == StopToolUse || r.stopReason == StopContentFilter)
  }

  lemma RebuiltIsSame(b: Block, proj: Projection)
    ensures Rebuilt(b, proj) == b <==> FaithfulBlock(b, proj)
  {
    DedupeKeepsFirst(b.citations);
    assert FaithfulBlock(b, proj) ==> b == b.(citations := b.citations, toolUse := b.toolUse, serverToolUse := b.serverToolUse);
  }

  lemma RebuiltKinds(content: seq<Block>, proj: Projection)
    ensures HasToolUse(RebuiltAll(content, proj)) <==> HasToolUse(content)
  {
    if HasToolUse(content) {
      var k :| 0 <= k < |content| && content[k].kind == BlockToolUse;
      assert RebuiltAll(content, proj)[k].kind == BlockToolUse;
    }
    if HasToolUse(RebuiltAll(content, proj)) {
      var k :| 0 <= k < |content| && RebuiltAll(content, proj)[k].kind == BlockToolUse;
      assert content[k].kind == BlockToolUse;
    }
  }

  /** Replay and aggregation are inverse to one another exactly on the faithful responses. */
  lemma RoundTripExactlyWhenFaithful(r: Response, proj: Projection)
    requires WithinGates(r.content)
    ensures ResponseOf(AddAll(NEW_AGG, ResponseEvents(r)), proj) == r <==> Faithful(r, proj)
  {
    ReplayThenAggregate(r, proj);
    RebuiltKinds(r.content, proj);
    var out := Replayed(r, proj);
    assert MergeUsage(ZERO_USAGE, r.usage) == r.usage <==> NormalUsage(r.usage);
    assert RebuiltAll(r.content, proj) == r.content <==> forall b :: b in r.content ==> FaithfulBlock(b, proj) by {
      forall i | 0 <= i < |r.content|
        ensures RebuiltAll(r.content, proj)[i] == r.content[i] <==> FaithfulBlock(r.content[i], proj)
      {
        RebuiltIsSame(r.content[i], proj);
      }
    }
  }

  // ----- a replayed response is never mistaken for a broken stream -----

  predicate Malformed(b: Block, proj: Projection, valid: string -> bool) {
    && b.kind == BlockToolUse && b.toolUse.Some? && Arguments(b) != ""
    && !valid(FillToolUse(b.toolUse.value, Inputs(b), proj).input)
  }

  predicate NoneMalformed(content: seq<Block>, proj: Projection, valid: string -> bool) {
    forall i :: 0 <= i < |content| ==> !Malformed(content[i], proj, valid)
  }

  ghost predicate JudgedAt(m: Agg, i: int, b: Block, proj: Projection, valid: string -> bool) {
    && i in m.blocks && i in m.closed
    && (i in m.sawInput && IsTruncated(m.blocks[i], valid) <==> Malformed(b, proj, valid))
  }

  ghost predicate Judged(m: Agg, content: seq<Block>, proj: Projection, valid: string -> bool) {
    forall i :: 0 <= i < |content| ==> JudgedAt(m, i, content[i], proj, valid)
  }

  lemma HeldIsJudged(a: Agg, content: seq<Block>, i: int, proj: Projection, valid: string -> bool)
    requires 0 <= i < |content| && Holds(a, content)
    ensures JudgedAt(Materialize(a, proj), i, content[i], proj, valid)
  {
    assert HeldAt(a, i, content[i]);
    FilledIsRebuilt(content[i], proj);
  }

  lemma {:induction false} TruncatedOnly(m: Agg, content: seq<Block>, proj: Projection, valid: string -> bool)
    requires Judged(m, content, proj, valid)
    ensures Truncated(m, UpTo(|content|), valid) == [] <==> NoneMalformed(content, proj, valid)
    ensures Unsigned(m, UpTo(|content|)) == []
  {
    if content == [] {
    } else {
      var n := |content| - 1;
      assert UpTo(n + 1)[..n] == UpTo(n);
      assert Judged(m, content[..n], proj, valid) && JudgedAt(m, n, content[n], proj, valid);
      TruncatedOnly(m, content[..n], proj, valid);
      NoneMalformedMore(content, proj, valid);
    }
  }

  lemma NoneMalformedMore(content: seq<Block>, proj: Projection, valid: string -> bool)
    requires content != []
    ensures var n := |content| - 1;
      NoneMalformed(content, proj, valid)
      <==> NoneMalformed(content[..n], proj, valid) && !Malformed(content[n], proj, valid)
  {
    var n := |content| - 1;
    assert forall i :: 0 <= i < n ==> content[..n][i] == content[i];
  }

  /** The only thing found wrong with a replayed response is a call whose arguments do not
      parse: all its blocks are closed, signed or not. */
  lemma ReplayIsUnsafeOnlyWhenMalformed(r: Response, proj: Projection, valid: string -> bool)
    requires WithinGates(r.content)
    ensures UnsafeBlocks(AddAll(NEW_AGG, ResponseEvents(r)), proj, valid) == []
       <==> NoneMalformed(r.content, proj, valid)
  {
    var a := AddAll(NEW_AGG, ResponseEvents(r));
    ReplayHolds(r);
    var m := Materialize(a, proj);
    forall i | 0 <= i < |r.content| ensures JudgedAt(m, i, r.content[i], proj, valid) {
      HeldIsJudged(a, r.content, i, proj, valid);
    }
    TruncatedOnly(m, r.content, proj, valid);
  }
}
