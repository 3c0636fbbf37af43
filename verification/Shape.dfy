/** Fitting a request to what a protocol accepts: backend/codec/shape.go, `MaxTokensFor` of
    backend/codec/lossy.go, the tool allow-list of backend/ir/types.go and `budgetForEffort`
    of backend/codec/anthropic/encode_request.go. */
module Shape {
  import opened Ir
  import opened Seqs
  import opened Blocks
  import opened ToolIds

  datatype Caps = Caps(
    thinking: bool, minThinkingBudget: int, thinkingExcludesForcedTools: bool, thinkingExcludesSampling: bool,
    maxTemperature: real, maxStopSequences: int, serverTools: bool, cacheBreakpoints: int,
    requiresMaxTokens: bool, defaultMaxTokens: int, systemAsText: bool, toolResultTextOnly: bool,
    maxToolIdLen: int)

  /** What shaping asks of code outside the model: `describe` words an attachment, `schemas` is
      the JSON library and the normalizer of schema dialects, `shorten` shortens an id. */
  datatype Outside = Outside(describe: Block -> string, schemas: Schemas, shorten: Shortener)

  // ----- tools -----

  function KeepServer(tools: seq<Tool>, caps: Caps): seq<Tool> {
    if caps.serverTools || tools == [] then tools
    else
      var t := tools[|tools| - 1];
      KeepServer(tools[..|tools| - 1], caps) + (if t.serverType == "" then [t] else [])
  }

  predicate AllowlistApplies(choice: Option<ToolChoice>) {
    choice.Some? && choice.value.allowed != [] && (choice.value.mode == ModeAuto || choice.value.mode == ModeAny)
  }

  function KeepAllowed(tools: seq<Tool>, allowed: seq<string>): seq<Tool> {
    if tools == [] then []
    else
      var t := tools[|tools| - 1];
      KeepAllowed(tools[..|tools| - 1], allowed) + (if t.serverType != "" || t.name in allowed then [t] else [])
  }

  predicate SomeAllowed(tools: seq<Tool>, allowed: seq<string>) {
    exists i :: 0 <= i < |tools| && tools[i].serverType == "" && tools[i].name in allowed
  }

  /** The tools the upstream will see.  An allow-list that matches nothing is not enforced. */
  function ShapedTools(tools: seq<Tool>, choice: Option<ToolChoice>, caps: Caps): seq<Tool> {
    var kept := KeepServer(tools, caps);
    if AllowlistApplies(choice) && SomeAllowed(kept, choice.value.allowed)
    then KeepAllowed(kept, choice.value.allowed) else kept
  }

  predicate Declared(tools: seq<Tool>, name: string) {
    exists i :: 0 <= i < |tools| && tools[i].name == name
  }

  function ShapedChoice(tools: seq<Tool>, choice: Option<ToolChoice>): Option<ToolChoice> {
    if choice.None? || tools == [] then None
    else if choice.value.mode == ModeTool && !Declared(tools, choice.value.name)
    then Some(ToolChoice(ModeAuto, "", [], ""))
    else choice
  }

  /** What the normalizer says: leave the schema out, replace it, or keep it. */
  datatype Normal = Omit | Replace(schema: string) | Keep

  /** `fill` supplies a missing top-level type; `normalize` fails on what it cannot read. */
  datatype Schemas = Schemas(
    trim: string -> string, valid: string -> bool, fill: string -> Option<string>, normalize: string -> Option<Normal>)

  const EMPTY_SCHEMA := "{\"type\":\"object\",\"properties\":{}}"

  function NormalSchema(raw: string, kept: string, lib: Schemas): string {
    match lib.normalize(raw)
    case None => EMPTY_SCHEMA
    case Some(Omit) => ""
    case Some(Replace(schema)) => schema
    case Some(Keep) => kept
  }

  function ShapedSchema(schema: string, lib: Schemas): string {
    var raw := lib.trim(schema);
    if raw == "" then NormalSchema(EMPTY_SCHEMA, EMPTY_SCHEMA, lib)
    else if !lib.valid(raw) then EMPTY_SCHEMA
    else
      match lib.fill(raw)
      case Some(filled) => NormalSchema(filled, filled, lib)
      case None => NormalSchema(raw, schema, lib)
  }

  /** The schema of a server tool is none of ours. */
  function WithSchema(t: Tool, lib: Schemas): Tool {
    if t.serverType != "" then t else t.(schema := ShapedSchema(t.schema, lib))
  }

  function WithSchemas(tools: seq<Tool>, lib: Schemas): (out: seq<Tool>)
    ensures |out| == |tools| && forall i :: 0 <= i < |tools| ==> out[i] == WithSchema(tools[i], lib)
  {
    seq(|tools|, i requires 0 <= i < |tools| => WithSchema(tools[i], lib))
  }

  method ShapeToolSchema(t: Tool, lib: Schemas) returns (out: Tool)
    requires t.serverType == ""
    ensures out == WithSchema(t, lib)
  {
    out := t;
    var raw := lib.trim(t.schema);
    if raw != "" && !lib.valid(raw) {
      return out.(schema := EMPTY_SCHEMA);
    }
    if raw == "" {
      out := out.(schema := EMPTY_SCHEMA);
      raw := EMPTY_SCHEMA;
    } else {
      var filled := lib.fill(raw);
      if filled.Some? {
        out := out.(schema := filled.value);
        raw := filled.value;
      }
    }
    var res := lib.normalize(raw);
    if res.None? {
      return out.(schema := EMPTY_SCHEMA);
    }
    if res.value.Omit? {
      return out.(schema := "");
    }
    if res.value.Replace? {
      out := out.(schema := res.value.schema);
    }
  }

  method DropServerTools(req: Request, caps: Caps)
    modifies req`tools
    ensures req.tools == KeepServer(old(req.tools), caps)
  {
    if caps.serverTools {
      return;
    }
    var kept: seq<Tool> := [];
    for i := 0 to |req.tools|
      invariant req.tools == old(req.tools) && kept == KeepServer(req.tools[..i], caps)
    {
      assert req.tools[..i + 1][..i] == req.tools[..i];
      if req.tools[i].serverType == "" {
        kept := kept + [req.tools[i]];
      }
    }
    assert req.tools[..|req.tools|] == req.tools;
    req.tools := kept;
  }

  /** `ok` is false when the list cannot be enforced. */
  method AllowlistNarrow(tools: seq<Tool>, allowed: seq<string>) returns (kept: seq<Tool>, ok: bool)
    ensures ok <==> SomeAllowed(tools, allowed)
    ensures kept == if ok then KeepAllowed(tools, allowed) else tools
  {
    kept, ok := [], false;
    for i := 0 to |tools|
      invariant kept == KeepAllowed(tools[..i], allowed)
      invariant ok <==> exists k :: 0 <= k < i && tools[k].serverType == "" && tools[k].name in allowed
    {
      assert tools[..i + 1][..i] == tools[..i];
      var t := tools[i];
      if t.serverType != "" {
        kept := kept + [t];
        continue;
      }
      if t.name in allowed {
        kept := kept + [t];
        ok := true;
      }
    }
    assert tools[..|tools|] == tools;
    if !ok {
      kept := tools;
    }
  }

  method ShapeToolChoice(req: Request)
    modifies req`toolChoice
    ensures req.toolChoice == ShapedChoice(req.tools, old(req.toolChoice))
  {
    if req.toolChoice.None? {
      return;
    }
    if |req.tools| == 0 {
      req.toolChoice := None;
      return;
    }
    if req.toolChoice.value.mode != ModeTool {
      return;
    }
    for i := 0 to |req.tools|
      invariant forall k :: 0 <= k < i ==> req.tools[k].name != req.toolChoice.value.name
    {
      if req.tools[i].name == req.toolChoice.value.name {
        return;
      }
    }
    req.toolChoice := Some(ToolChoice(ModeAuto, "", [], ""));
  }

  method ShapeTools(req: Request, caps: Caps, lib: Schemas)
    modifies req`tools, req`toolChoice
    ensures req.tools == WithSchemas(ShapedTools(old(req.tools), old(req.toolChoice), caps), lib)
    ensures req.toolChoice == ShapedChoice(req.tools, old(req.toolChoice))
  {
    DropServerTools(req, caps);
    if AllowlistApplies(req.toolChoice) {
      var kept, ok := AllowlistNarrow(req.tools, req.toolChoice.value.allowed);
      if ok {
        req.tools := kept;
      }
    }
    ghost var was := req.tools;
    for i := 0 to |req.tools|
      invariant |req.tools| == |was| && req.toolChoice == old(req.toolChoice)
      invariant forall k :: 0 <= k < i ==> req.tools[k] == WithSchema(was[k], lib)
      invariant forall k :: i <= k < |was| ==> req.tools[k] == was[k]
    {
      if req.tools[i].serverType != "" {
        continue;
      }
      var shaped := ShapeToolSchema(req.tools[i], lib);
      req.tools := req.tools[i := shaped];
    }
    assert req.tools == WithSchemas(was, lib);
    ShapeToolChoice(req);
  }

  // ----- parameters -----

  predicate IsOn(t: Option<ThinkingConfig>) { t.Some? && t.value.On() }

  /** Only these two oblige the model to call a tool. */
  predicate Forced(choice: Option<ToolChoice>) {
    choice.Some? && (choice.value.mode == ModeAny || choice.value.mode == ModeTool)
  }

  /** The output limit to be written; none when the protocol can do without, or when it needs
      one and has no default, which is the encoder's error to raise. */
  function MaxTokensFor(want: int, caps: Caps): Option<int> {
    if want > 0 then Some(want)
    else if caps.requiresMaxTokens && caps.defaultMaxTokens > 0 then Some(caps.defaultMaxTokens)
    else None
  }

  datatype Params = Params(
    thinking: Option<ThinkingConfig>, temperature: Option<real>, topP: Option<real>, stop: seq<string>)

  function ParamsOf(req: Request): Params
    reads req
  {
    Params(req.thinking, req.temperature, req.topP, req.stopSequences)
  }

  function ClampBudget(t: Option<ThinkingConfig>, max: Option<int>, caps: Caps): Option<ThinkingConfig> {
    if IsOn(t) && caps.thinking && max.Some? && t.value.budget >= max.value
    then Some(t.value.(budget := max.value - 1)) else t
  }

  function KeepThinking(t: Option<ThinkingConfig>, max: Option<int>, choice: Option<ToolChoice>, caps: Caps)
    : Option<ThinkingConfig>
  {
    if !(IsOn(t) && caps.thinking) then t
    else if caps.minThinkingBudget > 0 && max.Some? && max.value - 1 < caps.minThinkingBudget then None
    else if caps.thinkingExcludesForcedTools && Forced(choice) then None
    else t
  }

  function ClampTemperature(temperature: Option<real>, caps: Caps): Option<real> {
    if caps.maxTemperature > 0.0 && temperature.Some? then
      if temperature.value > caps.maxTemperature then Some(caps.maxTemperature)
      else if temperature.value < 0.0 then Some(0.0) else temperature
    else temperature
  }

  function ShapedParams(p: Params, maxTokens: int, choice: Option<ToolChoice>, caps: Caps): Params {
    var max := MaxTokensFor(maxTokens, caps);
    var thinking := KeepThinking(ClampBudget(p.thinking, max, caps), max, choice, caps);
    var bare := IsOn(thinking) && caps.thinking && caps.thinkingExcludesSampling;
    Params(
      thinking, ClampTemperature(if bare then None else p.temperature, caps), if bare then None else p.topP,
      if caps.maxStopSequences > 0 && |p.stop| > caps.maxStopSequences then p.stop[..caps.maxStopSequences] else p.stop)
  }

  method ShapeThinking(req: Request, caps: Caps) returns (thinkingOn: bool)
    modifies req`thinking
    ensures var max := MaxTokensFor(req.maxTokens, caps);
      req.thinking == KeepThinking(ClampBudget(old(req.thinking), max, caps), max, req.toolChoice, caps)
    ensures thinkingOn == (IsOn(req.thinking) && caps.thinking)
  {
    thinkingOn := IsOn(req.thinking) && caps.thinking;
    var max := MaxTokensFor(req.maxTokens, caps);
    if thinkingOn && max.Some? && req.thinking.value.budget >= max.value {
      req.thinking := Some(req.thinking.value.(budget := max.value - 1));
    }
    if thinkingOn && caps.minThinkingBudget > 0 && max.Some? && max.value - 1 < caps.minThinkingBudget {
      req.thinking := None;
      return false;
    }
    if thinkingOn && caps.thinkingExcludesForcedTools && Forced(req.toolChoice) {
      req.thinking := None;
      thinkingOn := false;
    }
  }

  method ShapeParams(req: Request, caps: Caps)
    modifies req`thinking, req`temperature, req`topP, req`stopSequences
    ensures ParamsOf(req) == ShapedParams(old(ParamsOf(req)), req.maxTokens, req.toolChoice, caps)
  {
    var thinkingOn := ShapeThinking(req, caps);
    if thinkingOn && caps.thinkingExcludesSampling {
      if req.temperature.Some? || req.topP.Some? {
        req.temperature, req.topP := None, None;
      }
    }
    if caps.maxTemperature > 0.0 && req.temperature.Some? {
      if req.temperature.value > caps.maxTemperature {
        req.temperature := Some(caps.maxTemperature);
      } else if req.temperature.value < 0.0 {
        req.temperature := Some(0.0);
      }
    }
    if caps.maxStopSequences > 0 && |req.stopSequences| > caps.maxStopSequences {
      req.stopSequences := req.stopSequences[..caps.maxStopSequences];
    }
  }

  // ----- media inside tool results -----

  predicate IsMedia(kind: BlockKind) {
    kind == BlockImage || kind == BlockAudio || kind == BlockDocument || kind == BlockFile
  }

  /** The blocks of one sort, in order. */
  function Sorted(bs: seq<Block>, media: bool): seq<Block> {
    if bs == [] then []
    else
      var b := bs[|bs| - 1];
      Sorted(bs[..|bs| - 1], media) + (if IsMedia(b.kind) == media then [b] else [])
  }

  predicate HasResult(b: Block) { b.kind == BlockToolResult && b.toolResult.Some? }

  function Emptied(b: Block): Block {
    if HasResult(b) then b.(toolResult := Some(b.toolResult.value.(content := Sorted(b.toolResult.value.content, false))))
    else b
  }

  function EmptiedAll(bs: seq<Block>): seq<Block> {
    if bs == [] then [] else EmptiedAll(bs[..|bs| - 1]) + [Emptied(bs[|bs| - 1])]
  }

  function MediaIn(b: Block): seq<Block> {
    if HasResult(b) then Sorted(b.toolResult.value.content, true) else []
  }

  function MediaOf(bs: seq<Block>): seq<Block> {
    if bs == [] then [] else MediaOf(bs[..|bs| - 1]) + MediaIn(bs[|bs| - 1])
  }

  /** A message, and a user turn with what its tool results cannot carry. */
  function Unpacked(m: Message): seq<Message> {
    [m.(content := EmptiedAll(m.content))]
    + (if MediaOf(m.content) == [] then [] else [Message(User, MediaOf(m.content), "", "")])
  }

  function UnpackedAll(ms: seq<Message>): seq<Message> {
    if ms == [] then [] else UnpackedAll(ms[..|ms| - 1]) + Unpacked(ms[|ms| - 1])
  }

  function MovedMedia(ms: seq<Message>, caps: Caps): seq<Message> {
    if caps.toolResultTextOnly then UnpackedAll(ms) else ms
  }

  method SplitToolResultMedia(bs: seq<Block>) returns (kept: seq<Block>, media: seq<Block>)
    ensures kept == Sorted(bs, false) && media == Sorted(bs, true)
  {
    kept, media := [], [];
    for i := 0 to |bs|
      invariant kept == Sorted(bs[..i], false) && media == Sorted(bs[..i], true)
    {
      assert bs[..i + 1][..i] == bs[..i];
      if IsMedia(bs[i].kind) {
        media := media + [bs[i]];
        continue;
      }
      kept := kept + [bs[i]];
    }
    assert bs[..|bs|] == bs;
  }

  method UnpackMessage(m: Message) returns (out: Message, media: seq<Block>)
    ensures out == m.(content := EmptiedAll(m.content)) && media == MediaOf(m.content)
  {
    var content := [];
    media := [];
    for i := 0 to |m.content|
      invariant content == EmptiedAll(m.content[..i]) && media == MediaOf(m.content[..i])
    {
      assert m.content[..i + 1][..i] == m.content[..i];
      var b := m.content[i];
      if b.kind != BlockToolResult || b.toolResult.None? {
        content := content + [b];
        continue;
      }
      var kept, pulled := SplitToolResultMedia(b.toolResult.value.content);
      content := content + [b.(toolResult := Some(b.toolResult.value.(content := kept)))];
      media := media + pulled;
    }
    assert m.content[..|m.content|] == m.content;
    out := m.(content := content);
  }

  method MoveToolResultMedia(req: Request, caps: Caps)
    modifies req`messages
    ensures req.messages == MovedMedia(old(req.messages), caps)
  {
    if !caps.toolResultTextOnly {
      return;
    }
    var out := UnpackMessages(req.messages);
    req.messages := out;
  }

  method UnpackMessages(ms: seq<Message>) returns (out: seq<Message>)
    ensures out == UnpackedAll(ms)
  {
    out := [];
    for i := 0 to |ms|
      invariant out == UnpackedAll(ms[..i])
    {
      assert ms[..i + 1][..i] == ms[..i];
      var m, media := UnpackMessage(ms[i]);
      Associate(out, [m], if |media| > 0 then [Message(User, media, "", "")] else []);
      out := out + [m];
      if |media| > 0 {
        out := out + [Message(User, media, "", "")];
      }
    }
    assert ms[..|ms|] == ms;
  }

  /** The pieces a block is made of: itself, and what its result holds. */
  function Pieces(b: Block): seq<Block> {
    if HasResult(b) then [b.(toolResult := Some(b.toolResult.value.(content := [])))] + b.toolResult.value.content else [b]
  }

  function ContentPieces(bs: seq<Block>): seq<Block> {
    if bs == [] then [] else ContentPieces(bs[..|bs| - 1]) + Pieces(bs[|bs| - 1])
  }

  function MessagePieces(ms: seq<Message>): seq<Block> {
    if ms == [] then [] else MessagePieces(ms[..|ms| - 1]) + ContentPieces(ms[|ms| - 1].content)
  }

  predicate TextOnly(b: Block) {
    HasResult(b) ==>
      forall i :: 0 <= i < |b.toolResult.value.content| ==> !IsMedia(b.toolResult.value.content[i].kind)
  }

  predicate AllTextOnly(ms: seq<Message>) {
    forall k, i :: 0 <= k < |ms| && 0 <= i < |ms[k].content| ==> TextOnly(ms[k].content[i])
  }

  lemma {:induction false} SortedOut(bs: seq<Block>)
    ensures forall i :: 0 <= i < |Sorted(bs, false)| ==> !IsMedia(Sorted(bs, false)[i].kind)
    ensures forall i :: 0 <= i < |Sorted(bs, true)| ==> IsMedia(Sorted(bs, true)[i].kind)
  {
    if bs == [] {
    } else {
      SortedOut(bs[..|bs| - 1]);
    }
  }

  lemma AddedToOne(a: multiset<Block>, b: multiset<Block>, c: multiset<Block>, x: Block)
    requires a + b == c
    ensures (a + multiset{x}) + b == c + multiset{x} && a + (b + multiset{x}) == c + multiset{x}
  {}

  lemma {:induction false} SortedTogether(bs: seq<Block>)
    ensures multiset(Sorted(bs, true)) + multiset(Sorted(bs, false)) == multiset(bs)
  {
    if bs == [] {
    } else {
      var front, b := bs[..|bs| - 1], bs[|bs| - 1];
      SortedTogether(front);
      assert bs == front + [b];
      AddedToOne(multiset(Sorted(front, true)), multiset(Sorted(front, false)), multiset(front), b);
    }
  }

  lemma {:induction false} EmptiedAllTextOnly(bs: seq<Block>)
    ensures forall i :: 0 <= i < |EmptiedAll(bs)| ==> TextOnly(EmptiedAll(bs)[i])
  {
    if bs == [] {
    } else {
      EmptiedAllTextOnly(bs[..|bs| - 1]);
      if HasResult(bs[|bs| - 1]) { SortedOut(bs[|bs| - 1].toolResult.value.content); }
    }
  }

  lemma {:induction false} MediaArePlain(bs: seq<Block>)
    ensures forall i :: 0 <= i < |MediaOf(bs)| ==> IsMedia(MediaOf(bs)[i].kind)
  {
    if bs == [] {
    } else {
      MediaArePlain(bs[..|bs| - 1]);
      if HasResult(bs[|bs| - 1]) { SortedOut(bs[|bs| - 1].toolResult.value.content); }
    }
  }

  lemma {:induction false} PlainPieces(bs: seq<Block>)
    requires forall i :: 0 <= i < |bs| ==> !HasResult(bs[i])
    ensures ContentPieces(bs) == bs
  {
    if bs == [] {
    } else {
      PlainPieces(bs[..|bs| - 1]);
      FrontLast(bs);
    }
  }

  lemma EmptiedPieces(b: Block)
    ensures multiset(Pieces(Emptied(b))) + multiset(MediaIn(b)) == multiset(Pieces(b))
  {
    if HasResult(b) {
      var content := b.toolResult.value.content;
      SortedTogether(content);
      var shell := b.(toolResult := Some(b.toolResult.value.(content := [])));
      assert Pieces(Emptied(b)) == [shell] + Sorted(content, false);
      assert Pieces(b) == [shell] + content;
      assert multiset(Pieces(Emptied(b))) == multiset{shell} + multiset(Sorted(content, false));
    }
  }

  lemma Regrouped(a: multiset<Block>, b: multiset<Block>, c: multiset<Block>, d: multiset<Block>)
    ensures (a + b) + (c + d) == (a + c) + (b + d)
  {}

  lemma {:induction false} EmptiedContentPieces(bs: seq<Block>)
    ensures multiset(ContentPieces(EmptiedAll(bs))) + multiset(MediaOf(bs)) == multiset(ContentPieces(bs))
  {
    if bs == [] {
    } else {
      var front, b := bs[..|bs| - 1], bs[|bs| - 1];
      EmptiedContentPieces(front);
      EmptiedPieces(b);
      assert (EmptiedAll(front) + [Emptied(b)])[..|EmptiedAll(front)|] == EmptiedAll(front);
      Regrouped(multiset(ContentPieces(EmptiedAll(front))), multiset(Pieces(Emptied(b))),
                multiset(MediaOf(front)), multiset(MediaIn(b)));
    }
  }

  lemma OneMessagePieces(m: Message)
    ensures MessagePieces([m]) == ContentPieces(m.content)
  {
    assert [m][..0] == [];
  }

  lemma UnpackedPieces(m: Message)
    ensures multiset(MessagePieces(Unpacked(m))) == multiset(ContentPieces(m.content))
  {
    var first, media := m.(content := EmptiedAll(m.content)), MediaOf(m.content);
    EmptiedContentPieces(m.content);
    OneMessagePieces(first);
    if media != [] {
      var last := Message(User, media, "", "");
      MediaArePlain(m.content);
      PlainPieces(media);
      OneMessagePieces(last);
      MessagePiecesConcat([first], [last]);
    }
  }

  lemma UnpackedTextOnly(m: Message)
    ensures AllTextOnly(Unpacked(m))
  {
    EmptiedAllTextOnly(m.content);
    MediaArePlain(m.content);
  }

  lemma {:induction false} MessagePiecesConcat(a: seq<Message>, b: seq<Message>)
    ensures MessagePieces(a + b) == MessagePieces(a) + MessagePieces(b)
  {
    if b == [] {
      ConcatNothing(a);
    } else {
      ConcatFront(a, b);
      MessagePiecesConcat(a, b[..|b| - 1]);
      Associate(MessagePieces(a), MessagePieces(b[..|b| - 1]), ContentPieces(b[|b| - 1].content));
    }
  }

  /** After the move no tool result holds a medium, and no block has come or gone. */
  lemma {:induction false} MediaMove(ms: seq<Message>)
    ensures AllTextOnly(UnpackedAll(ms))
    ensures multiset(MessagePieces(UnpackedAll(ms))) == multiset(MessagePieces(ms))
  {
    if ms == [] {
    } else {
      var front, m := ms[..|ms| - 1], ms[|ms| - 1];
      MediaMove(front);
      UnpackedPieces(m);
      UnpackedTextOnly(m);
      MessagePiecesConcat(UnpackedAll(front), Unpacked(m));
    }
  }

  // ----- the system prompt -----

  /** Text blocks without text say nothing and are left out for every protocol. */
  function Telling(bs: seq<Block>): seq<Block> {
    if bs == [] then []
    else
      var b := bs[|bs| - 1];
      Telling(bs[..|bs| - 1]) + (if b.kind == BlockText && b.text == "" then [] else [b])
  }

  /** What a text-only prompt can say of the blocks.  `describe` words an attachment. */
  function Parts(bs: seq<Block>, describe: Block -> string): seq<string> {
    if bs == [] then []
    else
      var b := bs[|bs| - 1];
      Parts(bs[..|bs| - 1], describe) +
      (if b.kind == BlockText then if b.text == "" then [] else [b.text]
       else if IsMedia(b.kind) then [describe(b)] else [])
  }

  function Joined(parts: seq<string>): string {
    if parts == [] then "" else if |parts| == 1 then parts[0]
    else Joined(parts[..|parts| - 1]) + "\n\n" + parts[|parts| - 1]
  }

  /** The last mark among the blocks, with its time to live. */
  function LastMark(bs: seq<Block>): (string, string) {
    if bs == [] then ("", "")
    else if bs[|bs| - 1].cacheCtl != "" then (bs[|bs| - 1].cacheCtl, bs[|bs| - 1].cacheTTL)
    else LastMark(bs[..|bs| - 1])
  }

  function Folded(kept: seq<Block>, caps: Caps, describe: Block -> string): seq<Block> {
    if kept == [] || !caps.systemAsText then kept
    else if Parts(kept, describe) == [] then []
    else
      var (ctl, ttl) := LastMark(kept);
      [TextBlock(Joined(Parts(kept, describe))).(cacheCtl := ctl, cacheTTL := ttl)]
  }

  function ShapedSystem(system: seq<Block>, caps: Caps, describe: Block -> string): seq<Block> {
    Folded(Telling(system), caps, describe)
  }

  method DropEmptyTexts(bs: seq<Block>) returns (kept: seq<Block>)
    ensures kept == Telling(bs)
  {
    kept := [];
    for i := 0 to |bs|
      invariant kept == Telling(bs[..i])
    {
      assert bs[..i + 1][..i] == bs[..i];
      if bs[i].kind == BlockText && bs[i].text == "" {
        continue;
      }
      kept := kept + [bs[i]];
    }
    assert bs[..|bs|] == bs;
  }

  method ShapeSystem(req: Request, caps: Caps, describe: Block -> string)
    modifies req`system
    ensures req.system == ShapedSystem(old(req.system), caps, describe)
  {
    var kept := DropEmptyTexts(req.system);
    req.system := kept;
    if |kept| == 0 || !caps.systemAsText {
      return;
    }
    var parts: seq<string> := [];
    var ctl, ttl := "", "";
    for i := 0 to |kept|
      invariant req.system == kept
      invariant parts == Parts(kept[..i], describe) && (ctl, ttl) == LastMark(kept[..i])
    {
      assert kept[..i + 1][..i] == kept[..i];
      var b := kept[i];
      if b.kind == BlockText {
        if b.text != "" {
          parts := parts + [b.text];
        }
      } else if IsMedia(b.kind) {
        parts := parts + [describe(b)];
      }
      if b.cacheCtl != "" {
        ctl, ttl := b.cacheCtl, b.cacheTTL;
      }
    }
    assert kept[..|kept|] == kept;
    if |parts| == 0 {
      req.system := [];
      return;
    }
    var text := JoinParts(parts);
    req.system := [TextBlock(text).(cacheCtl := ctl, cacheTTL := ttl)];
  }

  method JoinParts(parts: seq<string>) returns (text: string)
    requires parts != []
    ensures text == Joined(parts)
  {
    text := parts[0];
    assert parts[..1] == [parts[0]];
    for i := 1 to |parts|
      invariant text == Joined(parts[..i])
    {
      assert parts[..i + 1][..i] == parts[..i];
      text := text + "\n\n" + parts[i];
    }
    assert parts[..|parts|] == parts;
  }

  // ----- cache marks -----

  /** Every place that may carry a cache mark, in the order in which a body is written. */
  function BlockSlots(b: Block): seq<string> {
    [b.cacheCtl] + (if b.toolResult.Some? then NestedSlots(b.toolResult.value.content) else [])
  }

  function NestedSlots(bs: seq<Block>): seq<string> {
    seq(|bs|, i requires 0 <= i < |bs| => bs[i].cacheCtl)
  }

  function ContentSlots(bs: seq<Block>): seq<string> {
    if bs == [] then [] else BlockSlots(bs[0]) + ContentSlots(bs[1..])
  }

  function MessageSlots(ms: seq<Message>): seq<string> {
    if ms == [] then [] else ContentSlots(ms[0].content) + MessageSlots(ms[1..])
  }

  function ToolSlots(tools: seq<Tool>): seq<string> {
    seq(|tools|, i requires 0 <= i < |tools| => tools[i].cacheCtl)
  }

  function Slots(tools: seq<Tool>, system: seq<Block>, ms: seq<Message>): seq<string> {
    ToolSlots(tools) + ContentSlots(system) + MessageSlots(ms)
  }

  function Marks(slots: seq<string>): seq<string> {
    if slots == [] then [] else (if slots[0] == "" then [] else [slots[0]]) + Marks(slots[1..])
  }

  /** The first `n` marks removed. */
  function Cleared(slots: seq<string>, n: nat): seq<string> {
    if slots == [] then []
    else if slots[0] == "" || n == 0 then [slots[0]] + Cleared(slots[1..], n)
    else [""] + Cleared(slots[1..], n - 1)
  }

  function LeftOver(slots: seq<string>, n: nat): nat {
    if |Marks(slots)| >= n then 0 else n - |Marks(slots)|
  }

  lemma {:induction false} MarksConcat(a: seq<string>, b: seq<string>)
    ensures Marks(a + b) == Marks(a) + Marks(b)
  {
    if a == [] {
      assert a + b == b;
    } else {
      assert (a + b)[1..] == a[1..] + b;
      MarksConcat(a[1..], b);
    }
  }

  lemma {:induction false} ClearedConcat(a: seq<string>, b: seq<string>, n: nat)
    ensures Cleared(a + b, n) == Cleared(a, n) + Cleared(b, LeftOver(a, n))
  {
    if a == [] {
      assert a + b == b;
    } else {
      assert (a + b)[1..] == a[1..] + b;
      ClearedConcat(a[1..], b, if a[0] == "" || n == 0 then n else n - 1);
    }
  }

  /** Clearing keeps every place, and of the marks exactly the later ones. */
  lemma {:induction false} ClearedKeepsLater(slots: seq<string>, n: nat)
    ensures |Cleared(slots, n)| == |slots|
    ensures Marks(Cleared(slots, n)) == if n >= |Marks(slots)| then [] else Marks(slots)[n..]
    ensures n == 0 ==> Cleared(slots, n) == slots
  {
    if slots == [] {
    } else {
      ClearedKeepsLater(slots[1..], if slots[0] == "" || n == 0 then n else n - 1);
      if n == 0 { assert slots == [slots[0]] + slots[1..]; }
    }
  }

  method ClearNested(bs: seq<Block>, n: nat) returns (out: seq<Block>, left: nat)
    ensures NestedSlots(out) == Cleared(NestedSlots(bs), n) && left == LeftOver(NestedSlots(bs), n)
    ensures |out| == |bs| && forall i :: 0 <= i < |bs| ==> out[i].(cacheCtl := "") == bs[i].(cacheCtl := "")
  {
    if |bs| == 0 {
      return [], n;
    }
    var first, rest := bs[0], [];
    left := n;
    if first.cacheCtl != "" && left > 0 {
      first := first.(cacheCtl := "");
      left := left - 1;
    }
    rest, left := ClearNested(bs[1..], left);
    out := [first] + rest;
    assert NestedSlots(bs)[1..] == NestedSlots(bs[1..]);
    assert NestedSlots(out) == [first.cacheCtl] + NestedSlots(rest);
  }

  /** The same block but for its marks. */
  predicate OnlyMarks(a: Block, b: Block) {
    && a.(cacheCtl := "", toolResult := None) == b.(cacheCtl := "", toolResult := None)
    && (a.toolResult.Some? <==> b.toolResult.Some?)
    && (a.toolResult.Some? ==>
          && a.toolResult.value.(content := []) == b.toolResult.value.(content := [])
          && |a.toolResult.value.content| == |b.toolResult.value.content|
          && forall i :: 0 <= i < |a.toolResult.value.content| ==>
               a.toolResult.value.content[i].(cacheCtl := "") == b.toolResult.value.content[i].(cacheCtl := ""))
  }

  predicate OnlyMarksAll(a: seq<Block>, b: seq<Block>) {
    |a| == |b| && forall i :: 0 <= i < |a| ==> OnlyMarks(a[i], b[i])
  }

  /** The messages are the same but for their marks. */
  predicate OnlyMarksIn(a: seq<Message>, b: seq<Message>) {
    && |a| == |b|
    && forall i :: 0 <= i < |a| ==> OnlyMarksAll(a[i].content, b[i].content) && a[i].(content := []) == b[i].(content := [])
  }

  method ClearBlock(b: Block, n: nat) returns (out: Block, left: nat)
    ensures BlockSlots(out) == Cleared(BlockSlots(b), n) && left == LeftOver(BlockSlots(b), n) && OnlyMarks(out, b)
  {
    out, left := b, n;
    ghost var nested := if b.toolResult.Some? then NestedSlots(b.toolResult.value.content) else [];
    assert BlockSlots(b)[1..] == nested;
    assert Marks(BlockSlots(b)) == (if b.cacheCtl == "" then [] else [b.cacheCtl]) + Marks(nested);
    if b.cacheCtl != "" && left > 0 {
      out := out.(cacheCtl := "");
      left := left - 1;
    }
    if b.toolResult.Some? {
      var content;
      content, left := ClearNested(b.toolResult.value.content, left);
      out := out.(toolResult := Some(b.toolResult.value.(content := content)));
      assert out.toolResult.value.(content := []) == b.toolResult.value.(content := []);
    }
    assert out.(cacheCtl := "", toolResult := None) == b.(cacheCtl := "", toolResult := None);
  }

  method ClearContent(bs: seq<Block>, n: nat) returns (out: seq<Block>, left: nat)
    ensures ContentSlots(out) == Cleared(ContentSlots(bs), n) && left == LeftOver(ContentSlots(bs), n)
    ensures OnlyMarksAll(out, bs)
  {
    if |bs| == 0 {
      return [], n;
    }
    var first, rest;
    first, left := ClearBlock(bs[0], n);
    ghost var mid := left;
    rest, left := ClearContent(bs[1..], left);
    out := [first] + rest;
    assert out[1..] == rest;
    ClearedConcat(BlockSlots(bs[0]), ContentSlots(bs[1..]), n);
    MarksConcat(BlockSlots(bs[0]), ContentSlots(bs[1..]));
  }

  method ClearMessages(ms: seq<Message>, n: nat) returns (out: seq<Message>, left: nat)
    ensures MessageSlots(out) == Cleared(MessageSlots(ms), n) && left == LeftOver(MessageSlots(ms), n)
    ensures OnlyMarksIn(out, ms)
  {
    if |ms| == 0 {
      return [], n;
    }
    var first, rest;
    first, left := ClearContent(ms[0].content, n);
    rest, left := ClearMessages(ms[1..], left);
    out := [ms[0].(content := first)] + rest;
    assert out[1..] == rest;
    ClearedConcat(ContentSlots(ms[0].content), MessageSlots(ms[1..]), n);
    MarksConcat(ContentSlots(ms[0].content), MessageSlots(ms[1..]));
  }

  /** The tools are the same but for their marks. */
  predicate OnlyToolMarks(a: seq<Tool>, b: seq<Tool>) {
    |a| == |b| && forall i :: 0 <= i < |a| ==> a[i].(cacheCtl := "") == b[i].(cacheCtl := "")
  }

  method ClearTools(tools: seq<Tool>, n: nat) returns (out: seq<Tool>, left: nat)
    ensures ToolSlots(out) == Cleared(ToolSlots(tools), n) && left == LeftOver(ToolSlots(tools), n)
    ensures OnlyToolMarks(out, tools)
  {
    if |tools| == 0 {
      return [], n;
    }
    var first, rest := tools[0], [];
    left := n;
    if first.cacheCtl != "" && left > 0 {
      first := first.(cacheCtl := "");
      left := left - 1;
    }
    rest, left := ClearTools(tools[1..], left);
    out := [first] + rest;
    assert ToolSlots(tools)[1..] == ToolSlots(tools[1..]);
    assert ToolSlots(out) == [first.cacheCtl] + ToolSlots(rest);
  }

  /** How many marks must go. */
  function Excess(slots: seq<string>, caps: Caps): nat {
    if caps.cacheBreakpoints <= 0 || |Marks(slots)| <= caps.cacheBreakpoints then 0
    else |Marks(slots)| - caps.cacheBreakpoints
  }

  method BudgetCache(req: Request, caps: Caps)
    modifies req`tools, req`system, req`messages
    ensures var was := old(Slots(req.tools, req.system, req.messages));
      Slots(req.tools, req.system, req.messages) == Cleared(was, Excess(was, caps))
    ensures OnlyToolMarks(req.tools, old(req.tools))
    ensures OnlyMarksAll(req.system, old(req.system)) && OnlyMarksIn(req.messages, old(req.messages))
  {
    ghost var t, s, m := ToolSlots(req.tools), ContentSlots(req.system), MessageSlots(req.messages);
    var n := Excess(Slots(req.tools, req.system, req.messages), caps);
    MarksConcat(t, s);
    MarksConcat(t + s, m);
    ClearedConcat(t + s, m, n);
    ClearedConcat(t, s, n);
    var tools, left := ClearTools(req.tools, n);
    var system;
    system, left := ClearContent(req.system, left);
    var messages;
    messages, left := ClearMessages(req.messages, left);
    req.tools, req.system, req.messages := tools, system, messages;
  }

  // ----- the whole -----

  const PLACEHOLDER := "(continuing the conversation)"

  /** A conversation has at least one turn. */
  function Spoken(ms: seq<Message>): seq<Message> {
    if ms == [] then [Message(User, [TextBlock(PLACEHOLDER)], "", "")] else ms
  }

  function LastMarks(marks: seq<string>, n: nat): seq<string> {
    if |marks| <= n then marks else marks[|marks| - n..]
  }

  /** The places for marks once the messages and the system prompt have their final layout. */
  function LaidOut(
      tools: seq<Tool>, choice: Option<ToolChoice>, system: seq<Block>, ms: seq<Message>, caps: Caps, describe: Block -> string)
    : seq<string>
  {
    Slots(ShapedTools(tools, choice, caps), ShapedSystem(system, caps, describe), MovedMedia(Spoken(ms), caps))
  }

  /** The ids of the calls as the protocol will see them. */
  function WithinIds(ms: seq<Message>, caps: Caps, lib: Outside): seq<Message> {
    ShapedIds(ms, caps.maxToolIdLen, lib.shorten)
  }

  /** Fits the request to the protocol.  The order of the stages matters: the choice is
      checked against the tools that remain, the parameters against the choice that remains,
      and the marks are counted over the final layout. */
  method ShapeRequest(req: Request, caps: Caps, lib: Outside)
    modifies req`messages, req`tools, req`toolChoice, req`thinking, req`temperature, req`topP, req`stopSequences, req`system
    ensures var tools := WithSchemas(ShapedTools(old(req.tools), old(req.toolChoice), caps), lib.schemas);
      var choice := ShapedChoice(tools, old(req.toolChoice));
      && OnlyToolMarks(req.tools, tools) && req.toolChoice == choice
      && ParamsOf(req) == ShapedParams(old(ParamsOf(req)), req.maxTokens, choice, caps)
    ensures OnlyMarksAll(req.system, ShapedSystem(old(req.system), caps, lib.describe))
    ensures OnlyMarksIn(req.messages, WithinIds(MovedMedia(Spoken(old(req.messages)), caps), caps, lib))
    ensures var slots := LaidOut(old(req.tools), old(req.toolChoice), old(req.system), old(req.messages), caps, lib.describe);
      Marks(Slots(req.tools, req.system, req.messages))
      == if caps.cacheBreakpoints > 0 then LastMarks(Marks(slots), caps.cacheBreakpoints) else Marks(slots)
    ensures (forall b :: lib.describe(b) != "") ==>
      Conforms(req.tools, req.toolChoice, ParamsOf(req), req.maxTokens, req.system, req.messages, caps)
  {
    LayOut(req, caps, lib);
    ghost var tools, system, ms := req.tools, req.system, req.messages;
    assert Slots(tools, system, ms) ==
      LaidOut(old(req.tools), old(req.toolChoice), old(req.system), old(req.messages), caps, lib.describe);
    Trim(req, caps, lib);
    if forall b :: lib.describe(b) != "" {
      TrimmedConforms(tools, req.tools, req.toolChoice, ParamsOf(req), req.maxTokens, system, req.system, ms, req.messages, caps, lib);
    }
  }

  /** The last two stages: marks within the budget, and ids within the limit. */
  method Trim(req: Request, caps: Caps, lib: Outside)
    modifies req`tools, req`system, req`messages
    ensures OnlyToolMarks(req.tools, old(req.tools))
    ensures OnlyMarksAll(req.system, old(req.system))
    ensures OnlyMarksIn(req.messages, WithinIds(old(req.messages), caps, lib))
    ensures var was := Marks(old(Slots(req.tools, req.system, req.messages)));
      Marks(Slots(req.tools, req.system, req.messages))
      == if caps.cacheBreakpoints > 0 then LastMarks(was, caps.cacheBreakpoints) else was
  {
    ghost var ms, slots := req.messages, Slots(req.tools, req.system, req.messages);
    BudgetCache(req, caps);
    ClearedKeepsLater(slots, Excess(slots, caps));
    ghost var cleared := req.messages;
    ShapeToolIds(req, caps.maxToolIdLen, lib.shorten);
    IdsLast(cleared, ms, caps, lib);
  }

  /** Everything but the budget for marks and the ids. */
  method LayOut(req: Request, caps: Caps, lib: Outside)
    modifies req`messages, req`tools, req`toolChoice, req`thinking, req`temperature, req`topP, req`stopSequences, req`system
    ensures req.messages == MovedMedia(Spoken(old(req.messages)), caps)
    ensures var kept := ShapedTools(old(req.tools), old(req.toolChoice), caps);
      req.tools == WithSchemas(kept, lib.schemas) && ToolSlots(req.tools) == ToolSlots(kept)
    ensures req.toolChoice == ShapedChoice(req.tools, old(req.toolChoice))
    ensures ParamsOf(req) == ShapedParams(old(ParamsOf(req)), req.maxTokens, req.toolChoice, caps)
    ensures req.system == ShapedSystem(old(req.system), caps, lib.describe)
    ensures (forall b :: lib.describe(b) != "") ==>
      Fits(req.tools, req.toolChoice, ParamsOf(req), req.maxTokens, req.system, req.messages, caps)
  {
    if |req.messages| == 0 {
      req.messages := [Message(User, [TextBlock(PLACEHOLDER)], "", "")];
    }
    MoveToolResultMedia(req, caps);
    ShapeTools(req, caps, lib.schemas);
    ShapeParams(req, caps);
    ShapeSystem(req, caps, lib.describe);
    SchemasKeepFaces(ShapedTools(old(req.tools), old(req.toolChoice), caps), lib.schemas);
    if forall b :: lib.describe(b) != "" {
      LaidOutFits(old(req.tools), old(req.toolChoice), old(ParamsOf(req)), req.maxTokens, old(req.system), old(req.messages), caps, lib);
    }
  }

  lemma StillSpoken(ms: seq<Message>, caps: Caps)
    ensures MovedMedia(Spoken(ms), caps) != []
  {
    if caps.toolResultTextOnly { assert |UnpackedAll(Spoken(ms))| > 0; }
  }

  /** What the system prompt leaves of its own marks: for a prompt in blocks those of the blocks
      that say something, for a prompt folded into one text at most one, the last of them. */
  lemma SystemMarks(system: seq<Block>, caps: Caps, describe: Block -> string)
    ensures !caps.systemAsText ==> ShapedSystem(system, caps, describe) == Telling(system)
    ensures caps.systemAsText ==>
      |Marks(ContentSlots(ShapedSystem(system, caps, describe)))| <= 1
      && (Parts(Telling(system), describe) != [] && LastMark(Telling(system)).0 != "" ==>
            Marks(ContentSlots(ShapedSystem(system, caps, describe))) == [LastMark(Telling(system)).0])
  {
    var out := ShapedSystem(system, caps, describe);
    if caps.systemAsText && out != [] && Telling(system) != [] {
      assert out[1..] == [];
      assert ContentSlots(out) == [out[0].cacheCtl];
    }
  }

  /** A blank system block takes no mark away from anybody: with or without it the request has
      the same places. */
  lemma BlankBlocksDoNotCount(
      tools: seq<Tool>, choice: Option<ToolChoice>, before: seq<Block>, blank: Block, after: seq<Block>,
      ms: seq<Message>, caps: Caps, describe: Block -> string)
    requires blank.kind == BlockText && blank.text == ""
    ensures LaidOut(tools, choice, before + [blank] + after, ms, caps, describe)
         == LaidOut(tools, choice, before + after, ms, caps, describe)
  {
    TellingConcat(before + [blank], after);
    TellingConcat(before, [blank]);
    TellingConcat(before, after);
    assert Telling([blank]) == [] by { assert [blank][..0] == []; }
    assert Telling(before + [blank] + after) == Telling(before + after);
  }

  lemma {:induction false} TellingConcat(a: seq<Block>, b: seq<Block>)
    ensures Telling(a + b) == Telling(a) + Telling(b)
  {
    if b == [] {
      ConcatNothing(a);
    } else {
      ConcatFront(a, b);
      TellingConcat(a, b[..|b| - 1]);
    }
  }

  /** What a protocol with these capabilities accepts. */
  ghost predicate Acceptable(tools: seq<Tool>, choice: Option<ToolChoice>, p: Params, maxTokens: int, caps: Caps) {
    var max := MaxTokensFor(maxTokens, caps);
    && (tools == [] ==> choice.None?)
    && (choice.Some? && choice.value.mode == ModeTool ==> Declared(tools, choice.value.name))
    && (IsOn(p.thinking) && caps.thinking ==>
          && (max.Some? ==> p.thinking.value.budget < max.value)
          && (max.Some? && caps.minThinkingBudget > 0 ==> caps.minThinkingBudget < max.value)
          && !(caps.thinkingExcludesForcedTools && Forced(choice))
          && (caps.thinkingExcludesSampling ==> p.temperature.None? && p.topP.None?))
    && (caps.maxTemperature > 0.0 && p.temperature.Some? ==> 0.0 <= p.temperature.value <= caps.maxTemperature)
    && (caps.maxStopSequences > 0 ==> |p.stop| <= caps.maxStopSequences)
  }

  /** Only tools the protocol runs and the allow-list admits, as far as it is enforced. */
  ghost predicate ToolsFit(tools: seq<Tool>, choice: Option<ToolChoice>, caps: Caps) {
    && (!caps.serverTools ==> forall i :: 0 <= i < |tools| ==> tools[i].serverType == "")
    && (AllowlistApplies(choice) && SomeAllowed(tools, choice.value.allowed) ==>
          forall i :: 0 <= i < |tools| ==> tools[i].serverType != "" || tools[i].name in choice.value.allowed)
  }

  predicate Blank(b: Block) { b.kind == BlockText && b.text == "" }

  /** Text and a mark, and nothing else. */
  predicate Plain(b: Block) { b.(cacheCtl := "", cacheTTL := "") == TextBlock(b.text) }

  /** The system prompt says something in every block, and in one text where it has to. */
  ghost predicate Told(system: seq<Block>, caps: Caps) {
    && (forall i :: 0 <= i < |system| ==> !Blank(system[i]))
    && (caps.systemAsText ==> system == [] || (|system| == 1 && Plain(system[0])))
  }

  ghost predicate Fits(
      tools: seq<Tool>, choice: Option<ToolChoice>, p: Params, maxTokens: int, system: seq<Block>, ms: seq<Message>, caps: Caps)
  {
    && Acceptable(tools, choice, p, maxTokens, caps) && ToolsFit(tools, choice, caps) && Told(system, caps)
    && ms != [] && (caps.toolResultTextOnly ==> AllTextOnly(ms))
  }

  /** The whole request is as the protocol wants it. */
  ghost predicate Conforms(
      tools: seq<Tool>, choice: Option<ToolChoice>, p: Params, maxTokens: int, system: seq<Block>, ms: seq<Message>, caps: Caps)
  {
    && Fits(tools, choice, p, maxTokens, system, ms, caps)
    && (caps.cacheBreakpoints > 0 ==> |Marks(Slots(tools, system, ms))| <= caps.cacheBreakpoints)
  }

  /** For every request and every protocol. */
  lemma ShapedIsAcceptable(tools: seq<Tool>, choice: Option<ToolChoice>, p: Params, maxTokens: int, caps: Caps)
    ensures var choice' := ShapedChoice(tools, choice);
      Acceptable(tools, choice', ShapedParams(p, maxTokens, choice', caps), maxTokens, caps)
  {}

  /** The same tools, as far as choice and filters go. */
  predicate SameFaces(a: seq<Tool>, b: seq<Tool>) {
    |a| == |b| && forall i :: 0 <= i < |a| ==> b[i].name == a[i].name && b[i].serverType == a[i].serverType
  }

  lemma SchemasKeepFaces(tools: seq<Tool>, lib: Schemas)
    ensures SameFaces(tools, WithSchemas(tools, lib)) && ToolSlots(WithSchemas(tools, lib)) == ToolSlots(tools)
  {}

  lemma CapsOnlyNames(a: seq<Tool>, b: seq<Tool>)
    requires OnlyToolMarks(b, a)
    ensures SameFaces(a, b)
  {
    forall i | 0 <= i < |a| ensures b[i].name == a[i].name && b[i].serverType == a[i].serverType {
      assert b[i].(cacheCtl := "").name == b[i].name && a[i].(cacheCtl := "").name == a[i].name;
      assert b[i].(cacheCtl := "").serverType == b[i].serverType && a[i].(cacheCtl := "").serverType == a[i].serverType;
    }
  }

  lemma SameFacesDeclare(a: seq<Tool>, b: seq<Tool>, name: string)
    requires SameFaces(a, b)
    ensures Declared(a, name) <==> Declared(b, name)
  {
    if Declared(a, name) {
      var i :| 0 <= i < |a| && a[i].name == name;
      assert b[i].name == name;
    }
    if Declared(b, name) {
      var i :| 0 <= i < |b| && b[i].name == name;
      assert a[i].name == name;
    }
  }

  lemma SameFacesAllow(a: seq<Tool>, b: seq<Tool>, allowed: seq<string>)
    requires SameFaces(a, b)
    ensures SomeAllowed(b, allowed) ==> SomeAllowed(a, allowed)
  {
    if SomeAllowed(b, allowed) {
      var i :| 0 <= i < |b| && b[i].serverType == "" && b[i].name in allowed;
      assert a[i].serverType == "" && a[i].name in allowed;
    }
  }

  lemma SameFacesFit(a: seq<Tool>, b: seq<Tool>, choice: Option<ToolChoice>, p: Params, maxTokens: int, caps: Caps)
    requires Acceptable(a, choice, p, maxTokens, caps) && ToolsFit(a, choice, caps) && SameFaces(a, b)
    ensures Acceptable(b, choice, p, maxTokens, caps) && ToolsFit(b, choice, caps)
  {
    if choice.Some? {
      SameFacesDeclare(a, b, choice.value.name);
      SameFacesAllow(a, b, choice.value.allowed);
    }
  }

  lemma SameFacesChoose(a: seq<Tool>, b: seq<Tool>, choice: Option<ToolChoice>)
    requires SameFaces(a, b)
    ensures ShapedChoice(a, choice) == ShapedChoice(b, choice)
  {
    if choice.Some? { SameFacesDeclare(a, b, choice.value.name); }
  }

  lemma LaidOutFits(
      tools: seq<Tool>, choice: Option<ToolChoice>, p: Params, maxTokens: int, system: seq<Block>, ms: seq<Message>,
      caps: Caps, lib: Outside)
    requires forall b :: lib.describe(b) != ""
    ensures var kept := ShapedTools(tools, choice, caps);
      var final := WithSchemas(kept, lib.schemas);
      var settled := ShapedChoice(final, choice);
      Fits(final, settled, ShapedParams(p, maxTokens, settled, caps), maxTokens,
           ShapedSystem(system, caps, lib.describe), MovedMedia(Spoken(ms), caps), caps)
  {
    var kept := ShapedTools(tools, choice, caps);
    var final := WithSchemas(kept, lib.schemas);
    var settled := ShapedChoice(kept, choice);
    SchemasKeepFaces(kept, lib.schemas);
    SameFacesChoose(kept, final, choice);
    ToolsAreFixed(tools, choice, caps);
    FixedToolsFit(kept, settled, caps);
    ShapedIsAcceptable(kept, choice, p, maxTokens, caps);
    SameFacesFit(kept, final, settled, ShapedParams(p, maxTokens, settled, caps), maxTokens, caps);
    ShapedIsTold(system, caps, lib.describe);
    StillSpoken(ms, caps);
    MediaMove(Spoken(ms));
  }

  lemma FixedToolsFit(tools: seq<Tool>, choice: Option<ToolChoice>, caps: Caps)
    requires ShapedTools(tools, choice, caps) == tools
    ensures ToolsFit(tools, choice, caps) && KeepServer(tools, caps) == tools
  {
    var served := KeepServer(tools, caps);
    forall t | t in tools ensures t in served && (caps.serverTools || t.serverType == "") {
      if AllowlistApplies(choice) && SomeAllowed(served, choice.value.allowed) {
        AllowedMembers(served, choice.value.allowed, t);
      }
      ServedMembers(tools, caps, t);
    }
    if !caps.serverTools { OnlyClientTools(tools, caps); }
    if AllowlistApplies(choice) && SomeAllowed(tools, choice.value.allowed) {
      forall i | 0 <= i < |tools| ensures tools[i].serverType != "" || tools[i].name in choice.value.allowed {
        AllowedMembers(tools, choice.value.allowed, tools[i]);
        assert tools[i] in tools;
      }
    }
  }

  lemma {:induction false} TellingTells(bs: seq<Block>)
    ensures forall i :: 0 <= i < |Telling(bs)| ==> !Blank(Telling(bs)[i])
    ensures |Telling(bs)| <= |bs| && (|Telling(bs)| == |bs| ==> Telling(bs) == bs)
  {
    if bs == [] {
    } else {
      TellingTells(bs[..|bs| - 1]);
      FrontLast(bs);
    }
  }

  lemma {:induction false} PartsSpeak(bs: seq<Block>, describe: Block -> string)
    requires forall b :: describe(b) != ""
    ensures forall i :: 0 <= i < |Parts(bs, describe)| ==> Parts(bs, describe)[i] != ""
  {
    if bs == [] {
    } else {
      PartsSpeak(bs[..|bs| - 1], describe);
    }
  }

  lemma JoinedSpeaks(parts: seq<string>)
    requires parts != [] && forall i :: 0 <= i < |parts| ==> parts[i] != ""
    ensures Joined(parts) != ""
  {}

  lemma ShapedIsTold(system: seq<Block>, caps: Caps, describe: Block -> string)
    requires forall b :: describe(b) != ""
    ensures Told(ShapedSystem(system, caps, describe), caps)
  {
    TellingTells(system);
    PartsSpeak(Telling(system), describe);
    if Parts(Telling(system), describe) != [] { JoinedSpeaks(Parts(Telling(system), describe)); }
  }

  lemma OnlyMarksMeans(a: Block, b: Block)
    requires OnlyMarks(a, b)
    ensures a.kind == b.kind && a.text == b.text && a.toolUse == b.toolUse && UseOf(a) == UseOf(b)
    ensures TextOnly(a) <==> TextOnly(b)
  {
    var x, y := a.(cacheCtl := "", toolResult := None), b.(cacheCtl := "", toolResult := None);
    assert x.kind == a.kind && y.kind == b.kind && x.text == a.text && y.text == b.text;
    assert x.toolUse == a.toolUse && y.toolUse == b.toolUse;
    if HasResult(a) {
      var s, t := a.toolResult.value.content, b.toolResult.value.content;
      forall i | 0 <= i < |s| ensures s[i].kind == t[i].kind {
        assert s[i].(cacheCtl := "").kind == s[i].kind && t[i].(cacheCtl := "").kind == t[i].kind;
      }
    }
  }

  lemma {:induction false} SameUseIds(a: seq<Block>, b: seq<Block>)
    requires OnlyMarksAll(a, b)
    ensures UseIds(a) == UseIds(b)
  {
    if a == [] {
    } else {
      var n := |a| - 1;
      SameUseIds(a[..n], b[..n]);
      OnlyMarksMeans(a[n], b[n]);
    }
  }

  lemma {:induction false} SameFlatIds(a: seq<Message>, b: seq<Message>)
    requires OnlyMarksIn(a, b)
    ensures UseIds(Flat(a)) == UseIds(Flat(b))
  {
    if a == [] {
    } else {
      var n := |a| - 1;
      SameFlatIds(a[..n], b[..n]);
      SameUseIds(a[n].content, b[n].content);
      IdsConcat(Flat(a[..n]), a[n].content);
      IdsConcat(Flat(b[..n]), b[n].content);
    }
  }

  lemma IdsKeepMarks(a: Block, b: Block, to: map<string, string>)
    requires OnlyMarks(a, b)
    ensures OnlyMarks(WithId(a, to), WithId(b, to)) && BlockSlots(WithId(a, to)) == BlockSlots(a)
  {
    OnlyMarksMeans(a, b);
    var x, y := a.(cacheCtl := "", toolResult := None), b.(cacheCtl := "", toolResult := None);
    if IsUse(a) {
      var u := Some(a.toolUse.value.(id := NewId(to, UseId(a))));
      assert WithId(a, to).(cacheCtl := "", toolResult := None) == x.(toolUse := u);
      assert WithId(b, to).(cacheCtl := "", toolResult := None) == y.(toolUse := u);
    } else if IsResult(a) {
      var s, t := a.toolResult.value, b.toolResult.value;
      assert s.(content := []).toolUseId == s.toolUseId && t.(content := []).toolUseId == t.toolUseId;
      assert s.(toolUseId := NewId(to, s.toolUseId)).(content := []) == t.(toolUseId := NewId(to, t.toolUseId)).(content := []);
      assert WithId(a, to).(cacheCtl := "", toolResult := None) == x;
      assert WithId(b, to).(cacheCtl := "", toolResult := None) == y;
    }
  }

  lemma SameBlock(b: Block)
    ensures OnlyMarks(b, b)
  {}

  lemma {:induction false} IdsKeepContentSlots(bs: seq<Block>, to: map<string, string>)
    ensures ContentSlots(WithIds(bs, to)) == ContentSlots(bs)
  {
    if bs == [] {
    } else {
      IdsKeepContentSlots(bs[1..], to);
      SameBlock(bs[0]);
      IdsKeepMarks(bs[0], bs[0], to);
      assert WithIds(bs, to)[1..] == WithIds(bs[1..], to);
    }
  }

  lemma {:induction false} IdsKeepSlots(ms: seq<Message>, to: map<string, string>)
    ensures MessageSlots(WithIdsAll(ms, to)) == MessageSlots(ms)
  {
    if ms == [] {
    } else {
      IdsKeepSlots(ms[1..], to);
      IdsKeepContentSlots(ms[0].content, to);
      assert WithIdsAll(ms, to)[1..] == WithIdsAll(ms[1..], to);
    }
  }

  lemma IdsKeepContent(a: seq<Block>, b: seq<Block>, to: map<string, string>)
    requires OnlyMarksAll(a, b)
    ensures OnlyMarksAll(WithIds(a, to), WithIds(b, to))
  {
    var x, y := WithIds(a, to), WithIds(b, to);
    forall i | 0 <= i < |a| ensures OnlyMarks(x[i], y[i]) { IdsKeepMarks(a[i], b[i], to); }
  }

  lemma IdsKeepMessages(a: seq<Message>, b: seq<Message>, to: map<string, string>)
    requires OnlyMarksIn(a, b)
    ensures OnlyMarksIn(WithIdsAll(a, to), WithIdsAll(b, to))
  {
    var x, y := WithIdsAll(a, to), WithIdsAll(b, to);
    forall i | 0 <= i < |a|
      ensures OnlyMarksAll(x[i].content, y[i].content) && x[i].(content := []) == y[i].(content := [])
    {
      IdsKeepContent(a[i].content, b[i].content, to);
      assert x[i].(content := []) == a[i].(content := []) && y[i].(content := []) == b[i].(content := []);
    }
  }

  lemma IdsKeepText(b: Block, to: map<string, string>)
    ensures TextOnly(WithId(b, to)) <==> TextOnly(b)
  {}

  lemma StaysTextOnly(out: seq<Message>, ms: seq<Message>, to: map<string, string>)
    requires AllTextOnly(ms) && (OnlyMarksIn(out, ms) || OnlyMarksIn(out, WithIdsAll(ms, to)))
    ensures AllTextOnly(out)
  {
    forall k, i | 0 <= k < |out| && 0 <= i < |out[k].content| ensures TextOnly(out[k].content[i]) {
      assert TextOnly(ms[k].content[i]);
      IdsKeepText(ms[k].content[i], to);
      if OnlyMarksIn(out, ms) {
        OnlyMarksMeans(out[k].content[i], ms[k].content[i]);
      } else {
        OnlyMarksMeans(out[k].content[i], WithIdsAll(ms, to)[k].content[i]);
      }
    }
  }

  /** Shortening ids after the marks have been cleared does to the messages what it would have
      done before, and costs no mark. */
  lemma IdsLast(cleared: seq<Message>, ms: seq<Message>, caps: Caps, lib: Outside)
    requires OnlyMarksIn(cleared, ms)
    ensures OnlyMarksIn(WithinIds(cleared, caps, lib), WithinIds(ms, caps, lib))
    ensures MessageSlots(WithinIds(cleared, caps, lib)) == MessageSlots(cleared)
  {
    SameFlatIds(cleared, ms);
    var to := IdRenames(UseIds(Flat(ms)), caps.maxToolIdLen, lib.shorten);
    IdsKeepSlots(cleared, to);
    IdsKeepMessages(cleared, ms, to);
  }

  lemma StaysTold(a: seq<Block>, b: seq<Block>, caps: Caps)
    requires Told(b, caps) && OnlyMarksAll(a, b)
    ensures Told(a, caps)
  {
    forall i | 0 <= i < |a| ensures !Blank(a[i]) && (Plain(b[i]) ==> Plain(a[i])) {
      OnlyMarksMeans(a[i], b[i]);
      assert !Blank(b[i]);
      if Plain(b[i]) { StaysPlain(a[i], b[i]); }
    }
  }

  lemma StaysPlain(a: Block, b: Block)
    requires OnlyMarks(a, b) && Plain(b)
    ensures Plain(a)
  {
    PlainMeans(b);
    var x, y := a.(cacheCtl := "", toolResult := None), b.(cacheCtl := "", toolResult := None);
    assert x == y && y == TextBlock(b.text).(cacheTTL := b.cacheTTL);
    assert a == x.(cacheCtl := a.cacheCtl, toolResult := a.toolResult);
    assert x.text == a.text;
  }

  lemma TrimmedConforms(
      tools: seq<Tool>, tools': seq<Tool>, choice: Option<ToolChoice>, p: Params, maxTokens: int,
      system: seq<Block>, system': seq<Block>, ms: seq<Message>, ms': seq<Message>, caps: Caps, lib: Outside)
    requires Fits(tools, choice, p, maxTokens, system, ms, caps)
    requires OnlyToolMarks(tools', tools)
    requires OnlyMarksAll(system', system) && OnlyMarksIn(ms', WithinIds(ms, caps, lib))
    requires caps.cacheBreakpoints > 0 ==> |Marks(Slots(tools', system', ms'))| <= caps.cacheBreakpoints
    ensures Conforms(tools', choice, p, maxTokens, system', ms', caps)
  {
    CapsOnlyNames(tools, tools');
    SameFacesFit(tools, tools', choice, p, maxTokens, caps);
    StaysTold(system', system, caps);
    if caps.toolResultTextOnly { StaysTextOnly(ms', ms, IdRenames(UseIds(Flat(ms)), caps.maxToolIdLen, lib.shorten)); }
  }

  /** Two prompts that differ in nothing but how long a mark would live. */
  predicate SameButLifetime(a: seq<Block>, b: seq<Block>) {
    |a| == |b| && forall i :: 0 <= i < |a| ==> a[i].(cacheTTL := "") == b[i].(cacheTTL := "")
  }

  /** Shaping would change nothing: neither the tools and their choice, nor the parameters, nor
      the messages, nor what the system prompt says, nor a mark. */
  ghost predicate LeftAlone(
      tools: seq<Tool>, choice: Option<ToolChoice>, p: Params, maxTokens: int, system: seq<Block>, ms: seq<Message>,
      caps: Caps, describe: Block -> string)
  {
    && ShapedTools(tools, choice, caps) == tools && ShapedChoice(tools, choice) == choice
    && ShapedParams(p, maxTokens, choice, caps) == p
    && MovedMedia(Spoken(ms), caps) == ms && SameButLifetime(ShapedSystem(system, caps, describe), system)
    && Cleared(Slots(tools, system, ms), Excess(Slots(tools, system, ms), caps)) == Slots(tools, system, ms)
  }

  /** A request is left alone exactly when it is as the protocol wants it.  So shaping, which
      makes it so, is idempotent. */
  lemma ConformsExactlyWhenLeftAlone(
      tools: seq<Tool>, choice: Option<ToolChoice>, p: Params, maxTokens: int, system: seq<Block>, ms: seq<Message>,
      caps: Caps, describe: Block -> string)
    ensures Conforms(tools, choice, p, maxTokens, system, ms, caps)
       <==> LeftAlone(tools, choice, p, maxTokens, system, ms, caps, describe)
  {
    ToolsFitExactly(tools, choice, caps);
    ToldExactly(system, caps, describe);
    MovedExactly(ms, caps);
    WithinBudgetExactly(Slots(tools, system, ms), caps);
    ShapedIsAcceptable(tools, choice, p, maxTokens, caps);
  }

  lemma WithinBudgetExactly(slots: seq<string>, caps: Caps)
    ensures (caps.cacheBreakpoints > 0 ==> |Marks(slots)| <= caps.cacheBreakpoints) <==> Cleared(slots, Excess(slots, caps)) == slots
  {
    ClearedKeepsLater(slots, Excess(slots, caps));
  }

  lemma ToolsFitExactly(tools: seq<Tool>, choice: Option<ToolChoice>, caps: Caps)
    ensures ToolsFit(tools, choice, caps) <==> ShapedTools(tools, choice, caps) == tools
  {
    if ToolsFit(tools, choice, caps) {
      if !caps.serverTools { OnlyClientTools(tools, caps); }
      if AllowlistApplies(choice) && SomeAllowed(tools, choice.value.allowed) { AllAllowed(tools, choice.value.allowed); }
    } else if ShapedTools(tools, choice, caps) == tools {
      FixedToolsFit(tools, choice, caps);
    }
  }

  lemma {:induction false} AllAllowed(tools: seq<Tool>, allowed: seq<string>)
    requires forall i :: 0 <= i < |tools| ==> tools[i].serverType != "" || tools[i].name in allowed
    ensures KeepAllowed(tools, allowed) == tools
  {
    if tools == [] {
    } else {
      AllAllowed(tools[..|tools| - 1], allowed);
      FrontLast(tools);
    }
  }

  lemma MovedExactly(ms: seq<Message>, caps: Caps)
    ensures ms != [] && (caps.toolResultTextOnly ==> AllTextOnly(ms)) <==> MovedMedia(Spoken(ms), caps) == ms
  {
    StillSpoken(ms, caps);
    if ms != [] && caps.toolResultTextOnly {
      MediaMove(ms);
      if AllTextOnly(ms) { NothingToMove(ms); }
    }
  }

  lemma {:induction false} NothingToMove(ms: seq<Message>)
    requires AllTextOnly(ms)
    ensures UnpackedAll(ms) == ms
  {
    if ms == [] {
    } else {
      var front, m := ms[..|ms| - 1], ms[|ms| - 1];
      assert AllTextOnly(front);
      NothingToMove(front);
      NothingToUnpack(m.content);
      FrontLast(ms);
      ConcatNothing([m.(content := EmptiedAll(m.content))]);
    }
  }

  lemma {:induction false} NothingToUnpack(bs: seq<Block>)
    requires forall i :: 0 <= i < |bs| ==> TextOnly(bs[i])
    ensures EmptiedAll(bs) == bs && MediaOf(bs) == []
  {
    if bs == [] {
    } else {
      var b := bs[|bs| - 1];
      NothingToUnpack(bs[..|bs| - 1]);
      FrontLast(bs);
      if HasResult(b) { NothingToSort(b.toolResult.value.content); }
    }
  }

  lemma {:induction false} NothingToSort(bs: seq<Block>)
    requires forall i :: 0 <= i < |bs| ==> !IsMedia(bs[i].kind)
    ensures Sorted(bs, false) == bs && Sorted(bs, true) == []
  {
    if bs == [] {
    } else {
      NothingToSort(bs[..|bs| - 1]);
      FrontLast(bs);
    }
  }

  lemma ToldExactly(system: seq<Block>, caps: Caps, describe: Block -> string)
    ensures Told(system, caps) <==> SameButLifetime(ShapedSystem(system, caps, describe), system)
  {
    TellingTells(system);
    if Told(system, caps) {
      AllTelling(system);
      if caps.systemAsText && system != [] { OneText(system, caps, describe); }
    } else if SameButLifetime(ShapedSystem(system, caps, describe), system) {
      LooksTold(system, caps, describe);
    }
  }

  lemma {:induction false} AllTelling(bs: seq<Block>)
    requires forall i :: 0 <= i < |bs| ==> !Blank(bs[i])
    ensures Telling(bs) == bs
  {
    if bs == [] {
    } else {
      AllTelling(bs[..|bs| - 1]);
      FrontLast(bs);
    }
  }

  lemma OneText(system: seq<Block>, caps: Caps, describe: Block -> string)
    requires |system| == 1 && Plain(system[0]) && !Blank(system[0]) && caps.systemAsText
    ensures SameButLifetime(ShapedSystem(system, caps, describe), system)
  {
    var b := system[0];
    PlainMeans(b);
    assert system[..0] == [] && Telling(system) == system;
    assert Parts(system, describe) == [b.text];
    assert LastMark(system).0 == b.cacheCtl;
  }

  lemma PlainMeans(b: Block)
    requires Plain(b)
    ensures b.kind == BlockText && b == TextBlock(b.text).(cacheCtl := b.cacheCtl, cacheTTL := b.cacheTTL)
  {
    assert b.(cacheCtl := "", cacheTTL := "").kind == b.kind;
    assert b == b.(cacheCtl := "", cacheTTL := "").(cacheCtl := b.cacheCtl, cacheTTL := b.cacheTTL);
  }

  lemma LooksTold(system: seq<Block>, caps: Caps, describe: Block -> string)
    requires SameButLifetime(ShapedSystem(system, caps, describe), system)
    ensures Told(system, caps)
  {
    TellingTells(system);
    var kept := Telling(system);
    if kept == [] || !caps.systemAsText {
      assert kept == system;
    } else if Parts(kept, describe) != [] {
      FoldedIsPlain(kept, caps, describe);
      LooksPlain(Folded(kept, caps, describe)[0], system[0]);
      assert kept == system;
    }
  }

  lemma FoldedIsPlain(kept: seq<Block>, caps: Caps, describe: Block -> string)
    requires kept != [] && caps.systemAsText && Parts(kept, describe) != []
    ensures |Folded(kept, caps, describe)| == 1 && Plain(Folded(kept, caps, describe)[0])
  {}

  lemma LooksPlain(shaped: Block, b: Block)
    requires shaped.(cacheTTL := "") == b.(cacheTTL := "") && Plain(shaped)
    ensures Plain(b)
  {
    assert b.(cacheTTL := "").(cacheCtl := "") == b.(cacheCtl := "", cacheTTL := "");
    assert shaped.(cacheTTL := "").(cacheCtl := "") == shaped.(cacheCtl := "", cacheTTL := "");
    assert b.(cacheTTL := "").text == b.text && shaped.(cacheTTL := "").text == shaped.text;
  }

  lemma {:induction false} ToolsAreFixed(tools: seq<Tool>, choice: Option<ToolChoice>, caps: Caps)
    ensures var kept := ShapedTools(tools, choice, caps);
      ShapedTools(kept, ShapedChoice(kept, choice), caps) == kept
  {
    var served := KeepServer(tools, caps);
    KeepServerTwice(tools, caps);
    var kept := ShapedTools(tools, choice, caps);
    if AllowlistApplies(choice) {
      KeepAllowedTwice(served, choice.value.allowed, caps);
      assert choice.value.mode != ModeTool;
    }
  }

  lemma {:induction false} KeepServerTwice(tools: seq<Tool>, caps: Caps)
    ensures KeepServer(KeepServer(tools, caps), caps) == KeepServer(tools, caps)
    ensures !caps.serverTools ==> forall i :: 0 <= i < |KeepServer(tools, caps)| ==> KeepServer(tools, caps)[i].serverType == ""
  {
    if !caps.serverTools && tools != [] {
      var front, t := KeepServer(tools[..|tools| - 1], caps), tools[|tools| - 1];
      KeepServerTwice(tools[..|tools| - 1], caps);
      if t.serverType == "" {
        var all := front + [t];
        assert all[..|all| - 1] == front && all[|all| - 1] == t;
      } else {
        assert front + [] == front;
      }
    }
  }

  lemma {:induction false} OnlyClientTools(tools: seq<Tool>, caps: Caps)
    requires !caps.serverTools && forall i :: 0 <= i < |tools| ==> tools[i].serverType == ""
    ensures KeepServer(tools, caps) == tools
  {
    if tools == [] {
    } else {
      OnlyClientTools(tools[..|tools| - 1], caps);
      assert tools == tools[..|tools| - 1] + [tools[|tools| - 1]];
    }
  }

  lemma {:induction false} KeepAllowedTwice(tools: seq<Tool>, allowed: seq<string>, caps: Caps)
    requires KeepServer(tools, caps) == tools
    requires !caps.serverTools ==> forall i :: 0 <= i < |tools| ==> tools[i].serverType == ""
    ensures var kept := KeepAllowed(tools, allowed);
      && KeepAllowed(kept, allowed) == kept && KeepServer(kept, caps) == kept
      && (forall i :: 0 <= i < |kept| ==> kept[i] in tools)
      && (forall i :: 0 <= i < |tools| && (tools[i].serverType != "" || tools[i].name in allowed) ==> tools[i] in kept)
  {
    AllowedOnce(tools, allowed);
    var kept := KeepAllowed(tools, allowed);
    forall t | true ensures t in kept <==> t in tools && (t.serverType != "" || t.name in allowed) {
      AllowedMembers(tools, allowed, t);
    }
    if !caps.serverTools {
      forall i | 0 <= i < |kept| ensures kept[i].serverType == "" { assert kept[i] in tools; }
      OnlyClientTools(kept, caps);
    }
  }

  lemma {:induction false} AllowedOnce(tools: seq<Tool>, allowed: seq<string>)
    ensures KeepAllowed(KeepAllowed(tools, allowed), allowed) == KeepAllowed(tools, allowed)
  {
    if tools == [] {
    } else {
      var n := |tools| - 1;
      var front, t := KeepAllowed(tools[..n], allowed), tools[n];
      AllowedOnce(tools[..n], allowed);
      if t.serverType != "" || t.name in allowed {
        KeepAllowedAppend(front, t, allowed);
      } else {
        assert front + [] == front;
      }
    }
  }

  lemma {:induction false} AllowedMembers(tools: seq<Tool>, allowed: seq<string>, t: Tool)
    ensures t in KeepAllowed(tools, allowed) <==> t in tools && (t.serverType != "" || t.name in allowed)
  {
    if tools == [] {
    } else {
      var n := |tools| - 1;
      AllowedMembers(tools[..n], allowed, t);
      assert tools == tools[..n] + [tools[n]];
    }
  }

  lemma KeepAllowedAppend(front: seq<Tool>, t: Tool, allowed: seq<string>)
    requires t.serverType != "" || t.name in allowed
    ensures KeepAllowed(front + [t], allowed) == KeepAllowed(front, allowed) + [t]
  {
    assert (front + [t])[..|front|] == front;
  }

  // ----- telling beforehand whether reasoning survives -----

  /** The read-only mirror of the two decisions above. */
  predicate ThinkingSurvives(t: Option<ThinkingConfig>, maxTokens: int, choice: Option<ToolChoice>, caps: Caps) {
    var max := MaxTokensFor(maxTokens, caps);
    && IsOn(t) && caps.thinking
    && !(caps.thinkingExcludesForcedTools && Forced(choice))
    && !(caps.minThinkingBudget > 0 && max.Some? && max.value - 1 < caps.minThinkingBudget)
  }

  /** On the request whose tools have been settled the mirror is exact. */
  lemma MirrorIsExact(p: Params, maxTokens: int, choice: Option<ToolChoice>, caps: Caps)
    ensures ThinkingSurvives(p.thinking, maxTokens, choice, caps)
       <==> caps.thinking && IsOn(ShapedParams(p, maxTokens, choice, caps).thinking)
  {}

  /** A tool that stays: the protocol runs it, or it is the client's. */
  predicate Stays(t: Tool, caps: Caps) { caps.serverTools || t.serverType == "" }

  /** The forced choice is about to go: no tool that stays is there to be forced, or none has
      the name. */
  predicate ChoiceGoes(tools: seq<Tool>, choice: ToolChoice, caps: Caps) {
    forall i :: 0 <= i < |tools| && Stays(tools[i], caps) ==> choice.mode == ModeTool && tools[i].name != choice.name
  }

  /** The output limit leaves room for the smallest budget. */
  predicate HasRoom(maxTokens: int, caps: Caps) {
    var max := MaxTokensFor(maxTokens, caps);
    caps.minThinkingBudget <= 0 || max.None? || max.value > caps.minThinkingBudget
  }

  /** Reasoning is on once the request has been shaped. */
  predicate Survives(tools: seq<Tool>, p: Params, maxTokens: int, choice: Option<ToolChoice>, caps: Caps) {
    var settled := ShapedChoice(ShapedTools(tools, choice, caps), choice);
    caps.thinking && IsOn(ShapedParams(p, maxTokens, settled, caps).thinking)
  }

  /** On the original request the mirror never says yes wrongly, and it says no wrongly exactly
      when reasoning is on, the limit leaves room for it, and the forced choice that is held
      against it is about to go. */
  lemma MirrorOnTheOriginal(tools: seq<Tool>, p: Params, maxTokens: int, choice: Option<ToolChoice>, caps: Caps)
    ensures ThinkingSurvives(p.thinking, maxTokens, choice, caps) ==> Survives(tools, p, maxTokens, choice, caps)
    ensures Survives(tools, p, maxTokens, choice, caps) && !ThinkingSurvives(p.thinking, maxTokens, choice, caps)
       <==> && IsOn(p.thinking) && caps.thinking && HasRoom(maxTokens, caps)
            && caps.thinkingExcludesForcedTools && Forced(choice) && ChoiceGoes(tools, choice.value, caps)
  {
    if Forced(choice) { ForcedGoes(tools, choice.value, caps); }
  }

  lemma ForcedGoes(tools: seq<Tool>, choice: ToolChoice, caps: Caps)
    requires Forced(Some(choice))
    ensures !Forced(ShapedChoice(ShapedTools(tools, Some(choice), caps), Some(choice))) <==> ChoiceGoes(tools, choice, caps)
  {
    var served, kept := KeepServer(tools, caps), ShapedTools(tools, Some(choice), caps);
    forall t | true ensures t in served <==> t in tools && Stays(t, caps) { ServedMembers(tools, caps, t); }
    if served != [] { SomeRemain(served, Some(choice)); }
    if ChoiceGoes(tools, choice, caps) {
      if served != [] { assert served[0] in tools; }
      forall i | 0 <= i < |served| ensures served[i].name != choice.name { assert served[i] in tools; }
    } else {
      var i :| 0 <= i < |tools| && Stays(tools[i], caps) && !(choice.mode == ModeTool && tools[i].name != choice.name);
      assert tools[i] in served;
    }
  }

  /** The allow-list never takes the last tool. */
  lemma SomeRemain(served: seq<Tool>, choice: Option<ToolChoice>)
    requires served != []
    ensures (if AllowlistApplies(choice) && SomeAllowed(served, choice.value.allowed)
             then KeepAllowed(served, choice.value.allowed) else served) != []
  {
    if AllowlistApplies(choice) && SomeAllowed(served, choice.value.allowed) {
      var i :| 0 <= i < |served| && served[i].serverType == "" && served[i].name in choice.value.allowed;
      AllowedMembers(served, choice.value.allowed, served[i]);
      assert served[i] in KeepAllowed(served, choice.value.allowed);
    }
  }

  lemma {:induction false} ServedMembers(tools: seq<Tool>, caps: Caps, t: Tool)
    ensures t in KeepServer(tools, caps) <==> t in tools && Stays(t, caps)
  {
    if caps.serverTools || tools == [] {
    } else {
      var n := |tools| - 1;
      ServedMembers(tools[..n], caps, t);
      assert tools == tools[..n] + [tools[n]];
    }
  }

  /** An input on which it says no wrongly: the choice forces a tool that nobody declares. */
  lemma MirrorIsWrong()
    ensures var caps := Caps(true, 1024, true, true, 1.0, 0, true, 4, true, 4096, false, false, 0);
      var choice, thinking := Some(ToolChoice(ModeTool, "gone", [], "")), Some(ThinkingConfig(Some(true), 2048, ""));
      var p := Params(thinking, None, None, []);
      !ThinkingSurvives(thinking, 0, choice, caps) && Survives([], p, 0, choice, caps)
  {
    var caps := Caps(true, 1024, true, true, 1.0, 0, true, 4, true, 4096, false, false, 0);
    var choice, thinking := Some(ToolChoice(ModeTool, "gone", [], "")), Some(ThinkingConfig(Some(true), 2048, ""));
    MirrorOnTheOriginal([], Params(thinking, None, None, []), 0, choice, caps);
  }

  // ----- a budget made up from an effort level -----

  const MIN_BUDGET := 1024

  function Ratio(effort: string): real {
    if effort == "low" || effort == "minimal" then 0.2
    else if effort == "high" || effort == "max" then 0.8 else 0.5
  }

  method BudgetForEffort(effort: string, maxTokens: int) returns (budget: int)
    ensures budget == EffortBudget(effort, maxTokens) && budget < maxTokens
    ensures budget >= MIN_BUDGET <==> maxTokens > MIN_BUDGET
    ensures budget < maxTokens - 1 && budget > MIN_BUDGET ==> budget as real <= maxTokens as real * Ratio(effort) < (budget + 1) as real
  {
    budget := (maxTokens as real * Ratio(effort)).Floor;
    if budget < MIN_BUDGET {
      budget := MIN_BUDGET;
    }
    if budget >= maxTokens {
      budget := maxTokens - 1;
    }
  }

  function EffortBudget(effort: string, maxTokens: int): int {
    var share := (maxTokens as real * Ratio(effort)).Floor;
    var floored := if share < MIN_BUDGET then MIN_BUDGET else share;
    if floored >= maxTokens then maxTokens - 1 else floored
  }

  /** The budget is always below the limit, reaches the minimum exactly when the limit leaves
      room for it, and more effort never means less of it. */
  lemma EffortBudgetFits(effort: string, maxTokens: int)
    ensures EffortBudget(effort, maxTokens) < maxTokens
    ensures EffortBudget(effort, maxTokens) >= MIN_BUDGET <==> maxTokens > MIN_BUDGET
    ensures maxTokens > 0 ==> EffortBudget("low", maxTokens) <= EffortBudget(effort, maxTokens) <= EffortBudget("high", maxTokens)
  {}

  /** Reasoning that survives shaping can always be given a budget the protocol takes. */
  lemma SurvivorsGetABudget(p: Params, maxTokens: int, choice: Option<ToolChoice>, caps: Caps, effort: string)
    requires caps.minThinkingBudget == MIN_BUDGET && MaxTokensFor(maxTokens, caps).Some?
    requires caps.thinking && IsOn(ShapedParams(p, maxTokens, choice, caps).thinking)
    ensures MIN_BUDGET <= EffortBudget(effort, MaxTokensFor(maxTokens, caps).value) < MaxTokensFor(maxTokens, caps).value
  {
    EffortBudgetFits(effort, MaxTokensFor(maxTokens, caps).value);
    MirrorIsExact(p, maxTokens, choice, caps);
  }
}
