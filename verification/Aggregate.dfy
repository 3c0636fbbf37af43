/** Collecting an event stream into a response: backend/ir/aggregate.go, `MergeUsage` of
    backend/ir/response.go and `DedupeCitations` of backend/ir/citation.go.

    `Agg` and `Add` say what the aggregator does to its builders; `Aggregator` is the object
    itself, proved to do exactly that; `Simple` is the obvious aggregator that appends every
    delta to its block at once, and the two always give the same response. */
module Aggregate {
  import opened Ir

  const MAX_CONTENT_BYTES := 33554432
  const MAX_BLOCKS := 4096

  /** Wraps the free text of a custom call as a JSON object. */
  type Projection = string -> string

  // ----- what is merged frame by frame -----

  function Later(was: int, now: int): int { if now > 0 then now else was }

  function Larger(was: int, now: int): int { if now > was then now else was }

  function LaterText(was: string, now: string): string { if now != "" then now else was }

  function MergeUsage(into: Usage, u: Usage): Usage {
    Usage(
      Later(into.input, u.input), Later(into.output, u.output),
      Larger(into.cacheRead, u.cacheRead), Larger(into.cacheWrite, u.cacheWrite),
      if u.detailsKnown then u.cacheWrite5m else into.cacheWrite5m,
      if u.detailsKnown then u.cacheWrite1h else into.cacheWrite1h,
      into.detailsKnown || u.detailsKnown,
      Later(into.reasoning, u.reasoning), Later(into.webSearches, u.webSearches),
      Later(into.webFetches, u.webFetches), Later(into.promptAudio, u.promptAudio),
      Later(into.completionAudio, u.completionAudio), Later(into.acceptedPrediction, u.acceptedPrediction),
      Later(into.rejectedPrediction, u.rejectedPrediction), Later(into.promptImage, u.promptImage),
      Later(into.promptText, u.promptText), Later(into.completionText, u.completionText),
      LaterText(into.inferenceGeo, u.inferenceGeo), LaterText(into.iterations, u.iterations))
  }

  /** Counts are not negative, and the split by time to live is zero unless known. */
  predicate NormalUsage(u: Usage) {
    && u.input >= 0 && u.output >= 0 && u.cacheRead >= 0 && u.cacheWrite >= 0 && u.reasoning >= 0
    && u.webSearches >= 0 && u.webFetches >= 0 && u.promptAudio >= 0 && u.completionAudio >= 0
    && u.acceptedPrediction >= 0 && u.rejectedPrediction >= 0
    && u.promptImage >= 0 && u.promptText >= 0 && u.completionText >= 0
    && (!u.detailsKnown ==> u.cacheWrite5m == 0 && u.cacheWrite1h == 0)
  }

  function LaterOption<T>(was: Option<T>, now: Option<T>): Option<T> { if now.Some? then now else was }

  function MergeReceipts(was: Receipts, now: Receipts): Receipts {
    Receipts(
      LaterText(was.serviceTier, now.serviceTier), LaterText(was.systemFingerprint, now.systemFingerprint),
      LaterOption(was.container, now.container),
      if now.completedAt != 0 then now.completedAt else was.completedAt,
      LaterText(was.promptCacheDiagnostics, now.promptCacheDiagnostics),
      LaterText(was.moderation, now.moderation),
      if now.metadata != map[] then now.metadata else was.metadata)
  }

  function MergedUsage(was: Usage, now: Option<Usage>): Usage {
    if now.Some? then MergeUsage(was, now.value) else was
  }

  /** What an event says about the response as a whole. */
  function Meta(r: Response, ev: Event): Response {
    match ev
    case MessageStart(id, model, receipts, audio, created, diagnostics, usage) =>
      r.(id := id, model := model, receipts := MergeReceipts(r.receipts, receipts),
         audio := LaterOption(r.audio, audio), created := if created != 0 then created else r.created,
         diagnostics := LaterText(r.diagnostics, diagnostics), usage := MergedUsage(r.usage, usage))
    case MessageDelta(reason, sequence, details, receipts, usage) =>
      r.(stopReason := if reason != StopUnset then reason else r.stopReason,
         stopSequence := LaterText(r.stopSequence, sequence), stopDetails := LaterOption(r.stopDetails, details),
         receipts := MergeReceipts(r.receipts, receipts), usage := MergedUsage(r.usage, usage))
    case _ => r
  }

  predicate SameCitation(a: Citation, b: Citation) {
    a.raw == b.raw && a.url == b.url && a.start == b.start && a.end == b.end
  }

  predicate Cited(cs: seq<Citation>, c: Citation) {
    exists k :: 0 <= k < |cs| && SameCitation(cs[k], c)
  }

  /** Keeps the first of each. */
  function Dedupe(cs: seq<Citation>): seq<Citation> {
    if cs == [] then []
    else
      var front, c := Dedupe(cs[..|cs| - 1]), cs[|cs| - 1];
      if Cited(front, c) then front else front + [c]
  }

  predicate AllDifferent(cs: seq<Citation>) {
    forall i, j :: 0 <= i < j < |cs| ==> !SameCitation(cs[i], cs[j])
  }

  /** The result names each source once, in order of first appearance, and loses none. */
  lemma {:induction false} DedupeKeepsFirst(cs: seq<Citation>)
    ensures AllDifferent(Dedupe(cs)) && |Dedupe(cs)| <= |cs|
    ensures forall c :: Cited(Dedupe(cs), c) <==> Cited(cs, c)
    ensures Dedupe(cs) == cs <==> AllDifferent(cs)
  {
    if cs == [] {
    } else {
      var front, c := cs[..|cs| - 1], cs[|cs| - 1];
      DedupeKeepsFirst(front);
      forall d | true ensures Cited(Dedupe(cs), d) <==> Cited(cs, d) {
        CitedAppend(front, c, d);
        CitedAppend(Dedupe(front), c, d);
        if SameCitation(c, d) && Cited(Dedupe(front), c) {
          var k :| 0 <= k < |Dedupe(front)| && SameCitation(Dedupe(front)[k], c);
          assert SameCitation(Dedupe(front)[k], d);
        }
      }
      assert cs == front + [c];
      if Dedupe(cs) == cs { assert AllDifferent(cs); }
      if AllDifferent(cs) {
        assert Dedupe(front) == front;
        assert !Cited(front, c);
      }
    }
  }

  lemma CitedAppend(cs: seq<Citation>, c: Citation, d: Citation)
    ensures Cited(cs + [c], d) <==> Cited(cs, d) || SameCitation(c, d)
  {
    if Cited(cs, d) {
      var k :| 0 <= k < |cs| && SameCitation(cs[k], d);
      assert SameCitation((cs + [c])[k], d);
    }
    if SameCitation(c, d) { assert SameCitation((cs + [c])[|cs|], d); }
  }

  // ----- the gates -----

  datatype Overflow = Fits | TooManyBytes | TooManyBlocks

  datatype Ledger = Ledger(bytes: nat, overflow: Overflow) {
    predicate Accepts(n: nat) { overflow == Fits && bytes + n <= MAX_CONTENT_BYTES }

    function Admit(n: nat): Ledger {
      if overflow != Fits then this
      else if bytes + n > MAX_CONTENT_BYTES then this.(overflow := TooManyBytes)
      else this.(bytes := bytes + n)
    }
  }

  // ----- builders beside blocks -----

  datatype Acc = Acc(text: string, thinking: string, sig: string, input: string) {
    function Size(): nat { |text| + |thinking| + |sig| + |input| }
  }

  const EMPTY_ACC := Acc("", "", "", "")

  function ThinkingOf(b: Block): Thinking { if b.thinking.Some? then b.thinking.value else NO_THINKING }

  function ToolUseOf(b: Block): ToolUse { if b.toolUse.Some? then b.toolUse.value else NO_TOOL_USE }

  function ServerToolUseOf(b: Block): ServerToolUse {
    if b.serverToolUse.Some? then b.serverToolUse.value else NO_SERVER_TOOL_USE
  }

  /** The content a block brings along when it starts. */
  function SeedAcc(b: Block): Acc {
    Acc(b.text, ThinkingOf(b).text, ThinkingOf(b).signature, ToolUseOf(b).input + ServerToolUseOf(b).input)
  }

  predicate IsDelta(ev: Event) { ev.TextDelta? || ev.ThinkingDelta? || ev.SigDelta? || ev.ToolInput? }

  function DeltaKind(ev: Event): BlockKind
    requires IsDelta(ev)
  {
    match ev
    case TextDelta(_, _) => BlockText
    case ToolInput(_, _) => BlockToolUse
    case _ => BlockThinking
  }

  /** What a delta changes on the block itself: a missing payload is supplied, and a known
      origin of a signature is written down. */
  function Touch(b: Block, ev: Event): Block
    requires IsDelta(ev)
  {
    match ev
    case TextDelta(_, _) => b
    case ThinkingDelta(_, _) => b.(thinking := Some(ThinkingOf(b)))
    case SigDelta(_, _, from) =>
      b.(thinking := Some(if from != "" then ThinkingOf(b).(signatureFrom := from) else ThinkingOf(b)))
    case ToolInput(_, _) =>
      if b.kind == BlockServerToolUse then b.(serverToolUse := Some(ServerToolUseOf(b)))
      else b.(toolUse := Some(ToolUseOf(b)))
  }

  function Grow(x: Acc, ev: Event): Acc
    requires IsDelta(ev)
  {
    match ev
    case TextDelta(_, text) => x.(text := x.text + text)
    case ThinkingDelta(_, text) => x.(thinking := x.thinking + text)
    case SigDelta(_, text, _) => x.(sig := x.sig + text)
    case ToolInput(_, text) => x.(input := x.input + text)
  }

  function FillToolUse(u: ToolUse, input: string, proj: Projection): ToolUse {
    if u.kind == ToolCustom then u.(inputText := input, input := proj(input)) else u.(input := input)
  }

  /** Writes the builders back onto their block. */
  function Fill(b: Block, x: Acc, proj: Projection): Block {
    b.(text := x.text,
       thinking := if b.thinking.Some? then Some(b.thinking.value.(text := x.thinking, signature := x.sig)) else None,
       toolUse := if b.toolUse.Some? then Some(FillToolUse(b.toolUse.value, x.input, proj)) else None,
       serverToolUse := if b.serverToolUse.Some? then Some(b.serverToolUse.value.(input := x.input)) else None)
  }

  datatype Agg = Agg(
    resp: Response, blocks: map<int, Block>, order: seq<int>, sawInput: set<int>, closed: set<int>,
    accs: map<int, Acc>, ledger: Ledger)

  const NEW_AGG := Agg(EMPTY_RESPONSE, map[], [], {}, {}, map[], Ledger(0, Fits))

  function AccAt(a: Agg, index: int): Acc { if index in a.accs then a.accs[index] else EMPTY_ACC }

  function Ordered(order: seq<int>, known: bool, index: int): seq<int> {
    if known then order else order + [index]
  }

  predicate Full(known: bool, order: seq<int>) { !known && |order| >= MAX_BLOCKS }

  function StartedBlock(block: Option<Block>): Block {
    if block.Some? then block.value else EmptyBlock(BlockText)
  }

  function AddStart(a: Agg, index: int, b: Block): Agg {
    if Full(index in a.blocks, a.order) then a.(ledger := a.ledger.(overflow := TooManyBlocks))
    else
      var n := SeedAcc(b).Size();
      a.(order := Ordered(a.order, index in a.blocks, index), blocks := a.blocks[index := b],
         accs := if a.ledger.Accepts(n) then a.accs[index := SeedAcc(b)] else a.accs - {index},
         ledger := a.ledger.Admit(n))
  }

  function AddDelta(a: Agg, ev: Event): Agg
    requires IsDelta(ev)
  {
    var i, ledger := ev.index, a.ledger.Admit(|ev.text|);
    if !a.ledger.Accepts(|ev.text|) then a.(ledger := ledger)
    else if Full(i in a.blocks, a.order) then a.(ledger := ledger.(overflow := TooManyBlocks))
    else
      var b := if i in a.blocks then a.blocks[i] else EmptyBlock(DeltaKind(ev));
      a.(ledger := ledger, order := Ordered(a.order, i in a.blocks, i),
         blocks := a.blocks[i := Touch(b, ev)], accs := a.accs[i := Grow(AccAt(a, i), ev)],
         sawInput := if ev.ToolInput? && ev.text != "" then a.sawInput + {i} else a.sawInput)
  }

  function AddCitations(blocks: map<int, Block>, index: int, cs: seq<Citation>): map<int, Block> {
    if index in blocks
    then blocks[index := blocks[index].(citations := Dedupe(blocks[index].citations + cs))] else blocks
  }

  function Add(a: Agg, ev: Event): Agg {
    match ev
    case BlockStart(index, block) => AddStart(a, index, StartedBlock(block))
    case TextDelta(_, _) => AddDelta(a, ev)
    case ThinkingDelta(_, _) => AddDelta(a, ev)
    case SigDelta(_, _, _) => AddDelta(a, ev)
    case ToolInput(_, _) => AddDelta(a, ev)
    case CitationDelta(index, cs) => a.(blocks := AddCitations(a.blocks, index, cs))
    case BlockStop(index) => a.(closed := a.closed + {index})
    case _ => a.(resp := Meta(a.resp, ev))
  }

  function FilledAt(a: Agg, index: int, proj: Projection): Block
    requires index in a.blocks
  {
    if index in a.accs then Fill(a.blocks[index], a.accs[index], proj) else a.blocks[index]
  }

  function Materialize(a: Agg, proj: Projection): Agg {
    a.(blocks := map i | i in a.blocks :: FilledAt(a, i, proj))
  }

  function Collect(blocks: map<int, Block>, order: seq<int>): seq<Block> {
    if order == [] then []
    else
      var i := order[|order| - 1];
      Collect(blocks, order[..|order| - 1]) + (if i in blocks then [blocks[i]] else [])
  }

  predicate HasToolUse(content: seq<Block>) {
    exists k :: 0 <= k < |content| && content[k].kind == BlockToolUse
  }

  /** A response that calls tools says so, unless it was cut off by a content filter. */
  function Concluded(r: Response, content: seq<Block>): Response {
    r.(content := content,
       stopReason := if HasToolUse(content) && r.stopReason != StopContentFilter then StopToolUse else r.stopReason)
  }

  function ResponseOf(a: Agg, proj: Projection): Response {
    Concluded(a.resp, Collect(Materialize(a, proj).blocks, a.order))
  }

  // ----- the simple aggregator -----

  datatype Simple = Simple(resp: Response, blocks: map<int, Block>, order: seq<int>, ledger: Ledger)

  const NEW_SIMPLE := Simple(EMPTY_RESPONSE, map[], [], Ledger(0, Fits))

  function AppendInput(u: ToolUse, text: string, proj: Projection): ToolUse {
    if u.kind == ToolCustom then u.(inputText := u.inputText + text, input := proj(u.inputText + text))
    else u.(input := u.input + text)
  }

  /** The delta, appended where it belongs. */
  function Append(b: Block, ev: Event, proj: Projection): Block
    requires IsDelta(ev)
  {
    match ev
    case TextDelta(_, text) => b.(text := b.text + text)
    case ThinkingDelta(_, text) => b.(thinking := Some(ThinkingOf(b).(text := ThinkingOf(b).text + text)))
    case SigDelta(_, text, from) =>
      var t := ThinkingOf(b);
      b.(thinking := Some(t.(signature := t.signature + text,
                             signatureFrom := if from != "" then from else t.signatureFrom)))
    case ToolInput(_, text) =>
      if b.kind == BlockServerToolUse
      then b.(serverToolUse := Some(ServerToolUseOf(b).(input := ServerToolUseOf(b).input + text)))
      else b.(toolUse := Some(AppendInput(ToolUseOf(b), text, proj)))
  }

  /** A custom call that starts with arguments: they continue its free text. */
  function Adopt(b: Block, proj: Projection): Block {
    if b.toolUse.Some? && b.toolUse.value.kind == ToolCustom
    then b.(toolUse := Some(AppendInput(b.toolUse.value, b.toolUse.value.input, proj))) else b
  }

  function AddSimple(s: Simple, ev: Event, proj: Projection): Simple {
    match ev
    case BlockStart(i, block) =>
      var b := StartedBlock(block);
      var n := SeedAcc(b).Size();
      if Full(i in s.blocks, s.order) then s.(ledger := s.ledger.(overflow := TooManyBlocks))
      else s.(order := Ordered(s.order, i in s.blocks, i), ledger := s.ledger.Admit(n),
              blocks := s.blocks[i := if s.ledger.Accepts(n) then Adopt(b, proj) else b])
    case TextDelta(_, _) => AppendSimple(s, ev, proj)
    case ThinkingDelta(_, _) => AppendSimple(s, ev, proj)
    case SigDelta(_, _, _) => AppendSimple(s, ev, proj)
    case ToolInput(_, _) => AppendSimple(s, ev, proj)
    case CitationDelta(index, cs) => s.(blocks := AddCitations(s.blocks, index, cs))
    case BlockStop(_) => s
    case _ => s.(resp := Meta(s.resp, ev))
  }

  function AppendSimple(s: Simple, ev: Event, proj: Projection): Simple
    requires IsDelta(ev)
  {
    var i, ledger := ev.index, s.ledger.Admit(|ev.text|);
    if !s.ledger.Accepts(|ev.text|) then s.(ledger := ledger)
    else if Full(i in s.blocks, s.order) then s.(ledger := ledger.(overflow := TooManyBlocks))
    else
      var b := if i in s.blocks then s.blocks[i] else EmptyBlock(DeltaKind(ev));
      s.(ledger := ledger, order := Ordered(s.order, i in s.blocks, i), blocks := s.blocks[i := Append(b, ev, proj)])
  }

  // ----- both give the same response -----

  /** A block that starts with its arguments in one slot only: the slot of its kind, and for
      a custom call not yet as free text. */
  predicate CleanStart(b: Block) {
    && (b.serverToolUse.Some? ==> b.kind == BlockServerToolUse)
    && (b.kind == BlockServerToolUse ==> b.toolUse.None?)
    && (b.toolUse.Some? && b.toolUse.value.kind == ToolCustom ==> b.toolUse.value.inputText == "")
  }

  predicate OneSlot(b: Block) {
    (b.serverToolUse.Some? ==> b.kind == BlockServerToolUse) && (b.kind == BlockServerToolUse ==> b.toolUse.None?)
  }

  ghost predicate SameAt(a: Agg, s: Simple, proj: Projection, i: int) {
    i in a.blocks && i in s.blocks && OneSlot(a.blocks[i]) && FilledAt(a, i, proj) == s.blocks[i]
  }

  ghost predicate SameBlocks(a: Agg, s: Simple, proj: Projection, dirty: set<int>) {
    forall i :: i in a.blocks && i !in dirty ==> SameAt(a, s, proj, i)
  }

  /** The two agree on everything but what became of the blocks `dirty`. */
  ghost predicate Agree(a: Agg, s: Simple, proj: Projection, dirty: set<int>) {
    && a.resp == s.resp && a.order == s.order && a.ledger == s.ledger
    && a.blocks.Keys == s.blocks.Keys && a.accs.Keys <= a.blocks.Keys
    && (a.ledger.overflow == Fits ==> a.accs.Keys == a.blocks.Keys)
    && SameBlocks(a, s, proj, dirty)
  }

  lemma FillGrows(b: Block, x: Acc, ev: Event, proj: Projection)
    requires IsDelta(ev) && OneSlot(b)
    requires !b.thinking.Some? ==> x.thinking == "" && x.sig == ""
    requires !b.toolUse.Some? && !b.serverToolUse.Some? ==> x.input == ""
    ensures Fill(Touch(b, ev), Grow(x, ev), proj) == Append(Fill(b, x, proj), ev, proj)
    ensures OneSlot(Touch(b, ev))
  {}

  /** Builders hold nothing for a payload that is absent. */
  ghost predicate NoStray(a: Agg) {
    forall i :: i in a.accs && i in a.blocks ==>
      var b, x := a.blocks[i], a.accs[i];
      && (!b.thinking.Some? ==> x.thinking == "" && x.sig == "")
      && (!b.toolUse.Some? && !b.serverToolUse.Some? ==> x.input == "")
  }

  lemma DeltaHere(a: Agg, s: Simple, ev: Event, proj: Projection, dirty: set<int>)
    requires Agree(a, s, proj, dirty) && NoStray(a) && IsDelta(ev) && ev.index !in dirty
    requires a.ledger.Accepts(|ev.text|) && !Full(ev.index in a.blocks, a.order)
    ensures SameAt(AddDelta(a, ev), AppendSimple(s, ev, proj), proj, ev.index)
  {
    var i := ev.index;
    if i in a.blocks {
      assert i in a.accs && SameAt(a, s, proj, i);
      FillGrows(a.blocks[i], a.accs[i], ev, proj);
    } else {
      FillGrows(EmptyBlock(DeltaKind(ev)), EMPTY_ACC, ev, proj);
    }
  }

  lemma DeltaElsewhere(a: Agg, s: Simple, ev: Event, proj: Projection, j: int)
    requires SameAt(a, s, proj, j) && IsDelta(ev) && j != ev.index && a.ledger == s.ledger
    requires a.order == s.order && a.blocks.Keys == s.blocks.Keys
    ensures SameAt(AddDelta(a, ev), AppendSimple(s, ev, proj), proj, j)
  {
    assert FilledAt(AddDelta(a, ev), j, proj) == FilledAt(a, j, proj);
  }

  lemma DeltaStraysNot(a: Agg, ev: Event)
    requires NoStray(a) && IsDelta(ev) && a.accs.Keys <= a.blocks.Keys
    ensures NoStray(AddDelta(a, ev))
  {}

  lemma DeltaAgrees(a: Agg, s: Simple, ev: Event, proj: Projection, dirty: set<int>)
    requires Agree(a, s, proj, dirty) && NoStray(a) && IsDelta(ev)
    ensures Agree(AddDelta(a, ev), AppendSimple(s, ev, proj), proj, dirty) && NoStray(AddDelta(a, ev))
  {
    DeltaStraysNot(a, ev);
    var a', s' := AddDelta(a, ev), AppendSimple(s, ev, proj);
    if a.ledger.Accepts(|ev.text|) && !Full(ev.index in a.blocks, a.order) {
      forall j | j in a'.blocks && j !in dirty ensures SameAt(a', s', proj, j) {
        if j == ev.index {
          DeltaHere(a, s, ev, proj, dirty);
        } else {
          assert SameAt(a, s, proj, j);
          DeltaElsewhere(a, s, ev, proj, j);
        }
      }
    } else {
      assert a' == a.(ledger := a'.ledger) && s' == s.(ledger := a'.ledger);
      SameFilling(a, a', s, s', proj, dirty);
    }
  }

  lemma SameFilling(a: Agg, a': Agg, s: Simple, s': Simple, proj: Projection, dirty: set<int>)
    requires SameBlocks(a, s, proj, dirty) && a'.blocks == a.blocks && a'.accs == a.accs && s'.blocks == s.blocks
    ensures SameBlocks(a', s', proj, dirty)
  {
    forall j | j in a'.blocks && j !in dirty ensures SameAt(a', s', proj, j) { assert SameAt(a, s, proj, j); }
  }

  /** A start decides anew whether its block counts. */
  function Marked(dirty: set<int>, index: int, b: Block): set<int> {
    if CleanStart(b) then dirty - {index} else dirty + {index}
  }

  lemma StartAgrees(a: Agg, s: Simple, index: int, block: Option<Block>, proj: Projection, dirty: set<int>)
    requires Agree(a, s, proj, dirty) && NoStray(a)
    ensures var ev := BlockStart(index, block);
      && Agree(Add(a, ev), AddSimple(s, ev, proj), proj, Marked(dirty, index, StartedBlock(block)))
      && NoStray(Add(a, ev))
  {
    var b := StartedBlock(block);
    var now := Marked(dirty, index, b);
    var a', s' := Add(a, BlockStart(index, block)), AddSimple(s, BlockStart(index, block), proj);
    if Full(index in a.blocks, a.order) {
      forall j | j in a'.blocks && j !in now ensures SameAt(a', s', proj, j) { assert SameAt(a, s, proj, j); }
    } else {
      forall j | j in a'.blocks && j !in now ensures SameAt(a', s', proj, j) {
        if j == index { SeedIsAdopted(b, proj); } else { assert SameAt(a, s, proj, j); }
      }
    }
  }

  /** Seeding the builders keeps what a block starts with, except the free text of a custom
      call: the builder holds its arguments only. */
  lemma SeedIsAdopted(b: Block, proj: Projection)
    requires OneSlot(b)
    ensures Fill(b, SeedAcc(b), proj) == Adopt(b, proj) <==> CleanStart(b)
  {
    assert "" + ToolUseOf(b).input == ToolUseOf(b).input && ToolUseOf(b).input + "" == ToolUseOf(b).input;
    assert "" + ServerToolUseOf(b).input == ServerToolUseOf(b).input;
    if b.toolUse.Some? && b.toolUse.value.kind == ToolCustom {
      var u := b.toolUse.value;
      assert Adopt(b, proj).toolUse.value.inputText == u.inputText + u.input;
      assert Fill(b, SeedAcc(b), proj).toolUse.value.inputText == u.input;
      if u.inputText == "" {
        assert u.inputText + u.input == u.input;
      } else {
        assert |u.inputText + u.input| != |u.input|;
      }
    }
  }

  /** `Peek` is any of the calls that materialize midway. */
  datatype Op = Feed(ev: Event) | Peek

  function Run(ops: seq<Op>, proj: Projection): Agg {
    if ops == [] then NEW_AGG
    else
      var front := Run(ops[..|ops| - 1], proj);
      match ops[|ops| - 1]
      case Feed(ev) => Add(front, ev)
      case Peek => Materialize(front, proj)
  }

  function RunSimple(ops: seq<Op>, proj: Projection): Simple {
    if ops == [] then NEW_SIMPLE
    else
      var front := RunSimple(ops[..|ops| - 1], proj);
      match ops[|ops| - 1]
      case Feed(ev) => AddSimple(front, ev, proj)
      case Peek => front
  }

  lemma CitationsAgree(a: Agg, s: Simple, index: int, cs: seq<Citation>, proj: Projection, dirty: set<int>)
    requires Agree(a, s, proj, dirty) && NoStray(a)
    ensures var ev := CitationDelta(index, cs);
      Agree(Add(a, ev), AddSimple(s, ev, proj), proj, dirty) && NoStray(Add(a, ev))
  {
    var a', s' := Add(a, CitationDelta(index, cs)), AddSimple(s, CitationDelta(index, cs), proj);
    forall j | j in a'.blocks && j !in dirty ensures SameAt(a', s', proj, j) { assert SameAt(a, s, proj, j); }
  }

  lemma PeekAgrees(a: Agg, s: Simple, proj: Projection, dirty: set<int>)
    requires Agree(a, s, proj, dirty) && NoStray(a)
    ensures Agree(Materialize(a, proj), s, proj, dirty) && NoStray(Materialize(a, proj))
  {
    var a' := Materialize(a, proj);
    forall j | j in a'.blocks && j !in dirty ensures SameAt(a', s, proj, j) { assert SameAt(a, s, proj, j); }
  }

  /** The blocks whose last start brought something along that seeding does not keep. */
  function Dirty(ops: seq<Op>): set<int> {
    if ops == [] then {}
    else
      var front, op := Dirty(ops[..|ops| - 1]), ops[|ops| - 1];
      if op.Feed? && op.ev.BlockStart? then Marked(front, op.ev.index, StartedBlock(op.ev.block)) else front
  }

  lemma {:induction false} RunsAgree(ops: seq<Op>, proj: Projection)
    ensures Agree(Run(ops, proj), RunSimple(ops, proj), proj, Dirty(ops)) && NoStray(Run(ops, proj))
  {
    if ops == [] {
    } else {
      var front, op := ops[..|ops| - 1], ops[|ops| - 1];
      RunsAgree(front, proj);
      var a, s, dirty := Run(front, proj), RunSimple(front, proj), Dirty(front);
      match op
      case Peek => PeekAgrees(a, s, proj, dirty);
      case Feed(ev) =>
        match ev
        case BlockStart(index, block) => StartAgrees(a, s, index, block, proj, dirty);
        case TextDelta(_, _) => DeltaAgrees(a, s, ev, proj, dirty);
        case ThinkingDelta(_, _) => DeltaAgrees(a, s, ev, proj, dirty);
        case SigDelta(_, _, _) => DeltaAgrees(a, s, ev, proj, dirty);
        case ToolInput(_, _) => DeltaAgrees(a, s, ev, proj, dirty);
        case CitationDelta(index, cs) => CitationsAgree(a, s, index, cs, proj, dirty);
        case BlockStop(index) => OnlyMeta(a, Add(a, ev), s, s, proj, dirty);
        case _ => OnlyMeta(a, Add(a, ev), s, AddSimple(s, ev, proj), proj, dirty);
    }
  }

  lemma OnlyMeta(a: Agg, a': Agg, s: Simple, s': Simple, proj: Projection, dirty: set<int>)
    requires Agree(a, s, proj, dirty) && NoStray(a)
    requires a'.blocks == a.blocks && a'.accs == a.accs && a'.order == a.order && a'.ledger == a.ledger
    requires s' == s.(resp := a'.resp)
    ensures Agree(a', s', proj, dirty) && NoStray(a')
  {
    SameFilling(a, a', s, s', proj, dirty);
  }

  /** Lazy builders change nothing: whatever arrives, in whatever order, gates tripped or not,
      and wherever somebody looks in between, the aggregator agrees with the simple one on
      everything but the blocks that started unclean, and so, if there are none, on the
      response. */
  lemma BuildersRefineSimple(ops: seq<Op>, proj: Projection)
    ensures var a, s := Run(ops, proj), RunSimple(ops, proj);
      && a.resp == s.resp && a.order == s.order && a.ledger == s.ledger && a.blocks.Keys == s.blocks.Keys
      && (forall i :: i in a.blocks && i !in Dirty(ops) ==> Materialize(a, proj).blocks[i] == s.blocks[i])
      && (Dirty(ops) == {} ==> ResponseOf(a, proj) == Concluded(s.resp, Collect(s.blocks, s.order)))
  {
    RunsAgree(ops, proj);
    var a, s := Run(ops, proj), RunSimple(ops, proj);
    var filled := Materialize(a, proj).blocks;
    forall i | i in a.blocks && i !in Dirty(ops) ensures filled[i] == s.blocks[i] { assert SameAt(a, s, proj, i); }
    if Dirty(ops) == {} { assert filled == s.blocks; }
  }

  /** Looking is harmless in any state: a second look finds what the first one left. */
  lemma MaterializeIsIdempotent(a: Agg, proj: Projection)
    ensures Materialize(Materialize(a, proj), proj) == Materialize(a, proj)
    ensures ResponseOf(Materialize(a, proj), proj) == ResponseOf(a, proj)
  {
    var once := Materialize(a, proj);
    forall i | i in a.blocks ensures FilledAt(once, i, proj) == once.blocks[i] {}
  }

  // ----- interleaving -----

  predicate IsBlockEvent(ev: Event) {
    ev.BlockStart? || IsDelta(ev) || ev.CitationDelta? || ev.BlockStop?
  }

  /** What an accepted event does to its own block. */
  function Cost(ev: Event): nat {
    if ev.BlockStart? then SeedAcc(StartedBlock(ev.block)).Size() else if IsDelta(ev) then |ev.text| else 0
  }

  function BlockAfter(b: Block, ev: Event): Block {
    if ev.BlockStart? then StartedBlock(ev.block)
    else if IsDelta(ev) then Touch(b, ev)
    else if ev.CitationDelta? then b.(citations := Dedupe(b.citations + ev.citations))
    else b
  }

  function AccsAfter(accs: map<int, Acc>, ev: Event): map<int, Acc>
    requires IsBlockEvent(ev)
  {
    if ev.BlockStart? then accs[ev.index := SeedAcc(StartedBlock(ev.block))]
    else if IsDelta(ev) then accs[ev.index := Grow(if ev.index in accs then accs[ev.index] else EMPTY_ACC, ev)]
    else accs
  }

  function Effect(a: Agg, ev: Event): Agg
    requires IsBlockEvent(ev) && ev.index in a.blocks
  {
    var i := ev.index;
    a.(blocks := a.blocks[i := BlockAfter(a.blocks[i], ev)], accs := AccsAfter(a.accs, ev),
       sawInput := a.sawInput + (if ev.ToolInput? && ev.text != "" then {i} else {}),
       closed := a.closed + (if ev.BlockStop? then {i} else {}),
       ledger := a.ledger.(bytes := a.ledger.bytes + Cost(ev)))
  }

  lemma AcceptedEffect(a: Agg, ev: Event)
    requires IsBlockEvent(ev) && ev.index in a.blocks
    requires a.ledger.overflow == Fits && a.ledger.bytes <= MAX_CONTENT_BYTES
    ensures Add(a, ev).ledger.overflow == Fits <==> a.ledger.bytes + Cost(ev) <= MAX_CONTENT_BYTES
    ensures Add(a, ev).ledger.overflow == Fits ==> Add(a, ev) == Effect(a, ev)
  {
    var a' := Add(a, ev);
    assert a.sawInput + {} == a.sawInput && a.closed + {} == a.closed;
    if ev.BlockStop? { assert a.blocks[ev.index := a.blocks[ev.index]] == a.blocks; }
  }

  lemma OverflowStays(a: Agg, ev: Event)
    ensures a.ledger.overflow != Fits ==> Add(a, ev).ledger.overflow != Fits
    ensures a.ledger.bytes <= Add(a, ev).ledger.bytes
    ensures a.ledger.bytes <= MAX_CONTENT_BYTES ==> Add(a, ev).ledger.bytes <= MAX_CONTENT_BYTES
  {}

  lemma EffectsCommute(a: Agg, e: Event, f: Event)
    requires IsBlockEvent(e) && IsBlockEvent(f) && e.index != f.index
    requires e.index in a.blocks && f.index in a.blocks
    ensures Effect(Effect(a, e), f) == Effect(Effect(a, f), e)
  {
    var ef, fe := Effect(Effect(a, e), f), Effect(Effect(a, f), e);
    assert ef.blocks == fe.blocks;
    AccsCommute(a.accs, e, f);
    assert ef.sawInput == fe.sawInput && ef.closed == fe.closed;
  }

  lemma AccsCommute(accs: map<int, Acc>, e: Event, f: Event)
    requires IsBlockEvent(e) && IsBlockEvent(f) && e.index != f.index
    ensures AccsAfter(AccsAfter(accs, e), f) == AccsAfter(AccsAfter(accs, f), e)
  {}

  /** Events of two blocks that have both started may be swapped, as long as no gate trips. */
  lemma BlocksAreIndependent(a: Agg, e: Event, f: Event)
    requires IsBlockEvent(e) && IsBlockEvent(f) && e.index != f.index
    requires e.index in a.blocks && f.index in a.blocks && a.ledger.bytes <= MAX_CONTENT_BYTES
    requires Add(Add(a, e), f).ledger.overflow == Fits
    ensures Add(Add(a, e), f) == Add(Add(a, f), e)
  {
    OverflowStays(a, e);
    OverflowStays(Add(a, e), f);
    AcceptedEffect(a, e);
    AcceptedEffect(Add(a, e), f);
    AcceptedEffect(a, f);
    OverflowStays(a, f);
    AcceptedEffect(Add(a, f), e);
    EffectsCommute(a, e, f);
  }

  // ----- bounds -----

  function TotalSize(order: seq<int>, accs: map<int, Acc>): nat {
    if order == [] then 0
    else
      var i := order[|order| - 1];
      TotalSize(order[..|order| - 1], accs) + (if i in accs then accs[i].Size() else 0)
  }

  /** All memory the aggregator holds is accounted for, and bounded. */
  ghost predicate Bounded(a: Agg) {
    && (forall i, j :: 0 <= i < j < |a.order| ==> a.order[i] != a.order[j])
    && (forall i :: i in a.order <==> i in a.blocks)
    && a.accs.Keys <= a.blocks.Keys
    && |a.order| <= MAX_BLOCKS
    && TotalSize(a.order, a.accs) <= a.ledger.bytes <= MAX_CONTENT_BYTES
  }

  lemma {:induction false} SizeElsewhere(order: seq<int>, accs: map<int, Acc>, accs': map<int, Acc>, index: int)
    requires index !in order
    requires forall i :: i != index ==> (i in accs <==> i in accs') && (i in accs ==> accs[i] == accs'[i])
    ensures TotalSize(order, accs') == TotalSize(order, accs)
  {
    if order == [] {
    } else {
      SizeElsewhere(order[..|order| - 1], accs, accs', index);
    }
  }

  lemma {:induction false} SizeChanges(order: seq<int>, accs: map<int, Acc>, accs': map<int, Acc>, index: int)
    requires forall i, j :: 0 <= i < j < |order| ==> order[i] != order[j]
    requires index in order
    requires forall i :: i != index ==> (i in accs <==> i in accs') && (i in accs ==> accs[i] == accs'[i])
    ensures TotalSize(order, accs') + (if index in accs then accs[index].Size() else 0)
         == TotalSize(order, accs) + (if index in accs' then accs'[index].Size() else 0)
  {
    var front := order[..|order| - 1];
    if order[|order| - 1] == index {
      SizeElsewhere(front, accs, accs', index);
    } else {
      SizeChanges(front, accs, accs', index);
    }
  }

  lemma AccountFor(a: Agg, order: seq<int>, accs: map<int, Acc>, index: int)
    requires Bounded(a) && order == Ordered(a.order, index in a.blocks, index)
    requires forall i :: i != index ==> (i in a.accs <==> i in accs) && (i in accs ==> accs[i] == a.accs[i])
    ensures TotalSize(order, accs) + (if index in a.accs then a.accs[index].Size() else 0)
         == TotalSize(a.order, a.accs) + (if index in accs then accs[index].Size() else 0)
  {
    if index in a.blocks {
      SizeChanges(a.order, a.accs, accs, index);
    } else {
      SizeElsewhere(a.order, a.accs, accs, index);
      assert order[..|order| - 1] == a.order;
    }
  }

  /** Only block `index` changes, and the count pays for what it grows by. */
  ghost predicate Touches(a: Agg, a': Agg, index: int) {
    && a'.order == Ordered(a.order, index in a.blocks, index) && a'.blocks.Keys == a.blocks.Keys + {index}
    && a'.accs.Keys <= a.accs.Keys + {index}
    && (forall i :: i != index ==> (i in a.accs <==> i in a'.accs) && (i in a'.accs ==> a'.accs[i] == a.accs[i]))
  }

  lemma TouchedStaysBounded(a: Agg, a': Agg, index: int)
    requires Bounded(a) && !Full(index in a.blocks, a.order) && Touches(a, a', index)
    requires AccAt(a', index).Size() - AccAt(a, index).Size() <= a'.ledger.bytes - a.ledger.bytes
    requires a'.ledger.bytes <= MAX_CONTENT_BYTES
    ensures Bounded(a')
  {
    AccountFor(a, a'.order, a'.accs, index);
    assert EMPTY_ACC.Size() == 0;
  }

  lemma StartStaysBounded(a: Agg, index: int, b: Block)
    requires Bounded(a)
    ensures Bounded(AddStart(a, index, b))
  {
    if !Full(index in a.blocks, a.order) {
      TouchedStaysBounded(a, AddStart(a, index, b), index);
    }
  }

  lemma GrowSize(x: Acc, ev: Event)
    requires IsDelta(ev)
    ensures Grow(x, ev).Size() == x.Size() + |ev.text|
  {}

  lemma DeltaStaysBounded(a: Agg, ev: Event)
    requires Bounded(a) && IsDelta(ev)
    ensures Bounded(AddDelta(a, ev))
  {
    if a.ledger.Accepts(|ev.text|) && !Full(ev.index in a.blocks, a.order) {
      var a' := AddDelta(a, ev);
      GrowSize(AccAt(a, ev.index), ev);
      assert Touches(a, a', ev.index);
      TouchedStaysBounded(a, a', ev.index);
    }
  }

  /** No event whatsoever breaks the bounds. */
  lemma AddStaysBounded(a: Agg, ev: Event)
    requires Bounded(a)
    ensures Bounded(Add(a, ev))
  {
    if ev.BlockStart? { StartStaysBounded(a, ev.index, StartedBlock(ev.block)); }
    if IsDelta(ev) { DeltaStaysBounded(a, ev); }
  }

  lemma {:induction false} RunsAreBounded(ops: seq<Op>, proj: Projection)
    ensures Bounded(Run(ops, proj))
  {
    if ops == [] {
    } else {
      var front := ops[..|ops| - 1];
      RunsAreBounded(front, proj);
      if ops[|ops| - 1].Feed? { AddStaysBounded(Run(front, proj), ops[|ops| - 1].ev); }
    }
  }
}
