/** What shaping gives, read off the request and the capabilities alone: which tools are offered,
    where media and marks stand, what the system prompt says, and how near to the client's own
    parameters the shaped ones are.  None of these laws names a shaping function on its right. */
module ShapeLaws {
  import opened Ir
  import opened Seqs
  import opened Blocks
  import opened Shape

  // ----- tools -----

  /** The allow-list names one of the client's own tools, and the model may choose among them. */
  predicate Narrows(tools: seq<Tool>, choice: Option<ToolChoice>) {
    && choice.Some? && choice.value.mode in {ModeAuto, ModeAny}
    && exists i :: 0 <= i < |tools| && tools[i].serverType == "" && tools[i].name in choice.value.allowed
  }

  predicate Offers(t: Tool, allowed: Option<seq<string>>, caps: Caps) {
    if t.serverType != "" then caps.serverTools else allowed.None? || t.name in allowed.value
  }

  function Offered(tools: seq<Tool>, allowed: Option<seq<string>>, caps: Caps): seq<Tool> {
    if tools == [] then []
    else (if Offers(tools[0], allowed, caps) then [tools[0]] else []) + Offered(tools[1..], allowed, caps)
  }

  lemma {:induction false} OfferedLast(front: seq<Tool>, t: Tool, allowed: Option<seq<string>>, caps: Caps)
    ensures Offered(front + [t], allowed, caps)
         == Offered(front, allowed, caps) + (if Offers(t, allowed, caps) then [t] else [])
  {
    if front == [] {
      assert [] + [t] == [t] && [t][1..] == [];
    } else {
      OfferedLast(front[1..], t, allowed, caps);
      assert (front + [t])[1..] == front[1..] + [t];
    }
  }

  lemma {:induction false} ServersGo(tools: seq<Tool>, caps: Caps)
    ensures KeepServer(tools, caps) == Offered(tools, None, caps)
  {
    if tools == [] {
    } else {
      ServersGo(tools[..|tools| - 1], caps);
      OfferedLast(tools[..|tools| - 1], tools[|tools| - 1], None, caps);
      FrontLast(tools);
      if caps.serverTools { AllServe(tools[..|tools| - 1], caps); }
    }
  }

  lemma AllServe(tools: seq<Tool>, caps: Caps)
    requires caps.serverTools
    ensures KeepServer(tools, caps) == tools
  {}

  lemma AdmitNext(front: seq<Tool>, t: Tool, allowed: seq<string>)
    ensures KeepAllowed(front + [t], allowed)
         == KeepAllowed(front, allowed) + (if t.serverType != "" || t.name in allowed then [t] else [])
  {
    assert (front + [t])[..|front|] == front;
  }

  lemma {:induction false} AdmittedStay(tools: seq<Tool>, allowed: seq<string>, caps: Caps)
    ensures KeepAllowed(Offered(tools, None, caps), allowed) == Offered(tools, Some(allowed), caps)
  {
    if tools == [] {
    } else {
      var front, t := tools[..|tools| - 1], tools[|tools| - 1];
      AdmittedStay(front, allowed, caps);
      OfferedLast(front, t, None, caps);
      OfferedLast(front, t, Some(allowed), caps);
      FrontLast(tools);
      AdmitNext(Offered(front, None, caps), t, allowed);
      ConcatNothing(Offered(front, None, caps));
    }
  }

  lemma {:induction false} OffersOwn(tools: seq<Tool>, caps: Caps, t: Tool)
    requires t.serverType == ""
    ensures t in Offered(tools, None, caps) <==> t in tools
  {
    if tools == [] {
    } else {
      OffersOwn(tools[1..], caps, t);
    }
  }

  /** A tool of the client's own that the list names is there after the servers' tools have gone
      exactly when it was there before. */
  lemma NarrowsAlike(tools: seq<Tool>, choice: Option<ToolChoice>, caps: Caps)
    requires choice.Some?
    ensures SomeAllowed(Offered(tools, None, caps), choice.value.allowed) <==> SomeAllowed(tools, choice.value.allowed)
  {
    var kept, allowed := Offered(tools, None, caps), choice.value.allowed;
    if i :| 0 <= i < |kept| && kept[i].serverType == "" && kept[i].name in allowed {
      OffersOwn(tools, caps, kept[i]);
      assert kept[i] in tools;
    }
    if i :| 0 <= i < |tools| && tools[i].serverType == "" && tools[i].name in allowed {
      OffersOwn(tools, caps, tools[i]);
      assert tools[i] in kept;
    }
  }

  /** The tools offered, of all that were declared and in their order: a tool that the upstream
      runs itself exactly when the protocol has such tools, any other unless the client's
      allow-list is in force and leaves it out.  The list is in force for the modes auto and any,
      and only if it names a tool that is there. */
  lemma ToolsOffered(tools: seq<Tool>, choice: Option<ToolChoice>, caps: Caps)
    ensures ShapedTools(tools, choice, caps)
         == Offered(tools, if Narrows(tools, choice) then Some(choice.value.allowed) else None, caps)
  {
    ServersGo(tools, caps);
    if choice.Some? {
      NarrowsAlike(tools, choice, caps);
      AdmittedStay(tools, choice.value.allowed, caps);
    }
  }

  /** The choice goes with the last tool, a choice of a tool that is not there leaves the model
      free to choose, and every other stands as the client made it. */
  lemma ChoiceStands(tools: seq<Tool>, choice: Option<ToolChoice>)
    ensures ShapedChoice(tools, choice).None? <==> choice.None? || tools == []
    ensures ShapedChoice(tools, choice).Some? ==>
      var named := exists i :: 0 <= i < |tools| && tools[i].name == choice.value.name;
      if choice.value.mode != ModeTool || named then ShapedChoice(tools, choice) == choice
      else ShapedChoice(tools, choice).value == ToolChoice(ModeAuto, "", [], "")
  {}

  /** Nothing but a schema changes, and none of a tool that the upstream runs itself. */
  lemma OnlySchemas(t: Tool, lib: Schemas)
    ensures WithSchema(t, lib).(schema := "") == t.(schema := "")
    ensures t.serverType != "" ==> WithSchema(t, lib) == t
  {}

  /** What the normalizer is shown: the schema without surrounding blanks, the schema of a tool
      without parameters when there is none, and with a top-level type when that was missing. */
  function Shown(schema: string, lib: Schemas): string {
    var raw := lib.trim(schema);
    if raw == "" then "{\"type\":\"object\",\"properties\":{}}"
    else if lib.fill(raw).Some? then lib.fill(raw).value else raw
  }

  /** A schema that cannot be read, by us or by the normalizer, gives way to that of a tool without
      parameters, so that the tool can still be called.  Of the others the normalizer decides; one
      that it keeps is the client's own, blanks included, unless something had to be filled in. */
  lemma SchemasSent(t: Tool, lib: Schemas)
    requires t.serverType == ""
    ensures var sent, raw, shown := WithSchema(t, lib).schema, lib.trim(t.schema), Shown(t.schema, lib);
      && ((raw != "" && !lib.valid(raw)) || lib.normalize(shown).None? ==>
            sent == "{\"type\":\"object\",\"properties\":{}}")
      && ((raw == "" || lib.valid(raw)) && lib.normalize(shown).Some? ==>
            && (lib.normalize(shown).value.Omit? ==> sent == "")
            && (lib.normalize(shown).value.Replace? ==> sent == lib.normalize(shown).value.schema)
            && (lib.normalize(shown).value.Keep? ==>
                  sent == if raw != "" && lib.fill(raw).None? then t.schema else shown))
  {}

  // ----- parameters -----

  function Distance(a: real, b: real): real { if a < b then b - a else a - b }

  /** The output limit in force, if there is one. */
  predicate LimitIs(limit: Option<int>, want: int, caps: Caps) {
    && (limit.Some? <==> want > 0 || (caps.requiresMaxTokens && caps.defaultMaxTokens > 0))
    && (limit.Some? ==> limit.value == if want > 0 then want else caps.defaultMaxTokens)
  }

  lemma LimitInForce(want: int, caps: Caps)
    ensures LimitIs(MaxTokensFor(want, caps), want, caps)
  {}

  /** Reasoning is in force: the client asked for it and the protocol has it. */
  predicate Reasons(t: Option<ThinkingConfig>, caps: Caps) {
    t.Some? && t.value.enabled == Some(true) && caps.thinking
  }

  /** Reasoning that is not in force is left as it is.  Reasoning in force is dropped exactly when
      the limit has no room below it for the least budget, or a tool is forced where that excludes
      it.  Otherwise its budget is the largest below the limit that does not exceed the client's:
      no `other` such budget is larger, and nothing else of it changes. */
  lemma ReasoningStays(p: Params, maxTokens: int, choice: Option<ToolChoice>, caps: Caps, limit: Option<int>, other: int)
    requires LimitIs(limit, maxTokens, caps)
    ensures var t := ShapedParams(p, maxTokens, choice, caps).thinking;
      && (!Reasons(p.thinking, caps) ==> t == p.thinking)
      && (Reasons(p.thinking, caps) ==>
            && (t.None? <==> (limit.Some? && 0 < caps.minThinkingBudget && limit.value <= caps.minThinkingBudget)
                             || (caps.thinkingExcludesForcedTools && choice.Some? && choice.value.mode in {ModeAny, ModeTool}))
            && (t.Some? ==>
                  && t.value.(budget := 0) == p.thinking.value.(budget := 0)
                  && t.value.budget <= p.thinking.value.budget
                  && (limit.Some? ==> t.value.budget < limit.value)
                  && (other <= p.thinking.value.budget && (limit.Some? ==> other < limit.value) ==> other <= t.value.budget)))
  {
    LimitInForce(maxTokens, caps);
  }

  /** Where reasoning stays in force and excludes sampling, no sampling parameter is sent.  Anywhere
      else the temperature is the nearest one in range, which is the client's own if that is in
      range or no range is known, and the other parameter is the client's own. */
  lemma SamplingIsNearest(p: Params, maxTokens: int, choice: Option<ToolChoice>, caps: Caps)
    ensures var out := ShapedParams(p, maxTokens, choice, caps);
      if Reasons(out.thinking, caps) && caps.thinkingExcludesSampling then out.temperature.None? && out.topP.None?
      else
        && out.topP == p.topP
        && (out.temperature.Some? <==> p.temperature.Some?)
        && (p.temperature.Some? && caps.maxTemperature <= 0.0 ==> out.temperature == p.temperature)
        && (p.temperature.Some? && caps.maxTemperature > 0.0 ==>
              && 0.0 <= out.temperature.value <= caps.maxTemperature
              && forall x :: 0.0 <= x <= caps.maxTemperature ==>
                   Distance(p.temperature.value, out.temperature.value) <= Distance(p.temperature.value, x))
  {}

  /** The stop sequences are as many of the client's first ones as the protocol takes. */
  lemma StopsAreTheFirst(p: Params, maxTokens: int, choice: Option<ToolChoice>, caps: Caps)
    ensures var stop := ShapedParams(p, maxTokens, choice, caps).stop;
      && stop <= p.stop
      && (caps.maxStopSequences <= 0 || |p.stop| <= caps.maxStopSequences ==> |stop| == |p.stop|)
      && (0 < caps.maxStopSequences < |p.stop| ==> |stop| == caps.maxStopSequences)
  {}

  /** How many parts in ten of the limit an effort level is worth. */
  function TenthsFor(effort: string): nat {
    if effort in {"low", "minimal"} then 2 else if effort in {"high", "max"} then 8 else 5
  }

  /** The largest whole budget within the share, but no less than 1024, and below the limit all
      the same. */
  lemma BudgetIsTheShare(effort: string, maxTokens: int, share: int)
    requires 10 * share <= maxTokens * TenthsFor(effort) < 10 * (share + 1)
    ensures var floored := if share < 1024 then 1024 else share;
      EffortBudget(effort, maxTokens) == if floored < maxTokens then floored else maxTokens - 1
  {
    var exact := maxTokens as real * Ratio(effort);
    assert 10.0 * exact == (maxTokens * TenthsFor(effort)) as real;
    assert exact.Floor == share;
  }

  // ----- media -----

  function MediumOf(b: Block): seq<Block> {
    if b.kind in {BlockImage, BlockAudio, BlockDocument, BlockFile} then [b] else []
  }

  function OtherOf(b: Block): seq<Block> {
    if b.kind in {BlockImage, BlockAudio, BlockDocument, BlockFile} then [] else [b]
  }

  function MediaHeld(b: Block): seq<Block> {
    if IsResult(b) then Select(b.toolResult.value.content, MediumOf) else []
  }

  /** A tool result has lost its media and nothing else, any other block is the same. */
  predicate Lightened(out: Block, b: Block) {
    if IsResult(b)
    then out == b.(toolResult := Some(b.toolResult.value.(content := Select(b.toolResult.value.content, OtherOf))))
    else out == b
  }

  lemma {:induction false} SortedReads(bs: seq<Block>)
    ensures Sorted(bs, true) == Select(bs, MediumOf) && Sorted(bs, false) == Select(bs, OtherOf)
  {
    if bs == [] {
    } else {
      SortedReads(bs[..|bs| - 1]);
    }
  }

  lemma BlockReads(b: Block)
    ensures MediaIn(b) == MediaHeld(b) && Lightened(Emptied(b), b)
  {
    if IsResult(b) { SortedReads(b.toolResult.value.content); }
  }

  lemma {:induction false} MediaRead(bs: seq<Block>)
    ensures MediaOf(bs) == Select(bs, MediaHeld)
  {
    if bs == [] {
    } else {
      MediaRead(bs[..|bs| - 1]);
      BlockReads(bs[|bs| - 1]);
    }
  }

  lemma {:induction false} ContentReads(bs: seq<Block>)
    ensures |EmptiedAll(bs)| == |bs| && forall i :: 0 <= i < |bs| ==> Lightened(EmptiedAll(bs)[i], bs[i])
  {
    if bs == [] {
    } else {
      ContentReads(bs[..|bs| - 1]);
      BlockReads(bs[|bs| - 1]);
    }
  }

  /** Nothing of the message has changed but what its results hold. */
  predicate Relieved(out: Message, m: Message) {
    && out.(content := []) == m.(content := [])
    && |out.content| == |m.content| && forall i :: 0 <= i < |m.content| ==> Lightened(out.content[i], m.content[i])
  }

  /** Each message in its turn, and right behind it the media of its results as a user turn. */
  predicate Follow(out: seq<Message>, ms: seq<Message>) {
    if ms == [] then out == []
    else
      var m := ms[|ms| - 1];
      var media := Select(m.content, MediaHeld);
      if media == [] then out != [] && Relieved(out[|out| - 1], m) && Follow(out[..|out| - 1], ms[..|ms| - 1])
      else
        && |out| >= 2 && out[|out| - 1] == Message(User, media, "", "") && Relieved(out[|out| - 2], m)
        && Follow(out[..|out| - 2], ms[..|ms| - 1])
  }

  lemma UnpackedReads(m: Message)
    ensures var media := Select(m.content, MediaHeld);
      && Unpacked(m) != [] && Relieved(Unpacked(m)[0], m)
      && Unpacked(m)[1..] == if media == [] then [] else [Message(User, media, "", "")]
  {
    MediaRead(m.content);
    ContentReads(m.content);
  }

  lemma {:induction false} UnpackedFollow(ms: seq<Message>)
    ensures Follow(UnpackedAll(ms), ms)
  {
    if ms == [] {
    } else {
      var was, one := UnpackedAll(ms[..|ms| - 1]), Unpacked(ms[|ms| - 1]);
      UnpackedFollow(ms[..|ms| - 1]);
      UnpackedReads(ms[|ms| - 1]);
      assert one == [one[0]] + one[1..];
      assert (was + one)[..|was|] == was;
    }
  }

  /** For a protocol whose results carry text only, every message stays in its turn, loses the media
      of its results, and is followed by one user turn with just these, in order, if there are any.
      For any other protocol nothing moves. */
  lemma MediaFollow(ms: seq<Message>, caps: Caps)
    ensures if caps.toolResultTextOnly then Follow(MovedMedia(ms, caps), ms) else MovedMedia(ms, caps) == ms
  {
    UnpackedFollow(ms);
  }

  // ----- the system prompt -----

  function SayingOf(b: Block): seq<Block> { if b.kind == BlockText && b.text == "" then [] else [b] }

  /** What each block comes to in words, in order: its text, or how an attachment is described. */
  function Phrases(bs: seq<Block>, describe: Block -> string): seq<string> {
    if bs == [] then []
    else
      (if bs[0].kind == BlockText && bs[0].text != "" then [bs[0].text]
       else if bs[0].kind in {BlockImage, BlockAudio, BlockDocument, BlockFile} then [describe(bs[0])] else [])
      + Phrases(bs[1..], describe)
  }

  /** The phrases one after the other, with an empty line between any two. */
  function Written(phrases: seq<string>): string {
    if phrases == [] then "" else if |phrases| == 1 then phrases[0] else phrases[0] + "\n\n" + Written(phrases[1..])
  }

  /** The mark of the last block that says something and has one; none when there is no such block. */
  predicate MarkedLast(system: seq<Block>, ctl: string, ttl: string) {
    || (ctl == "" && ttl == "" && forall i :: 0 <= i < |system| ==> Unmarked(system[i]))
    || exists k :: 0 <= k < |system| && LastMarked(system, k, ctl, ttl)
  }

  predicate Unmarked(b: Block) { SayingOf(b) == [] || b.cacheCtl == "" }

  predicate LastMarked(system: seq<Block>, k: nat, ctl: string, ttl: string)
    requires k < |system|
  {
    && !Unmarked(system[k]) && ctl == system[k].cacheCtl && ttl == system[k].cacheTTL
    && forall i :: k < i < |system| ==> Unmarked(system[i])
  }

  lemma {:induction false} TellingReads(bs: seq<Block>)
    ensures Telling(bs) == Select(bs, SayingOf)
  {
    if bs == [] {
    } else {
      TellingReads(bs[..|bs| - 1]);
    }
  }

  lemma {:induction false} PhrasesLast(front: seq<Block>, b: Block, describe: Block -> string)
    ensures Phrases(front + [b], describe) == Phrases(front, describe) + Phrases([b], describe)
  {
    if front == [] {
      ConcatNothing([b]);
    } else {
      PhrasesLast(front[1..], b, describe);
      assert (front + [b])[1..] == front[1..] + [b];
    }
  }

  lemma PartsAppend(front: seq<Block>, b: Block, describe: Block -> string)
    requires SayingOf(b) != []
    ensures Parts(front + [b], describe) == Parts(front, describe) + Phrases([b], describe)
    ensures LastMark(front + [b]) == if b.cacheCtl == "" then LastMark(front) else (b.cacheCtl, b.cacheTTL)
  {
    assert (front + [b])[..|front|] == front;
    assert [b][1..] == [];
    assert Phrases([], describe) == [];
    ConcatNothing(Phrases([b], describe));
  }

  lemma {:induction false} PartsRead(bs: seq<Block>, describe: Block -> string)
    ensures Parts(Telling(bs), describe) == Phrases(bs, describe)
  {
    if bs == [] {
    } else {
      var front, b := bs[..|bs| - 1], bs[|bs| - 1];
      PartsRead(front, describe);
      PhrasesLast(front, b, describe);
      FrontLast(bs);
      ConcatNothing(Telling(front));
      if SayingOf(b) == [] {
        assert Phrases([b], describe) == [];
      } else {
        PartsAppend(Telling(front), b, describe);
      }
    }
  }

  lemma {:induction false} JoinedReads(parts: seq<string>)
    ensures Joined(parts) == Written(parts)
  {
    if |parts| <= 1 {
    } else {
      JoinedReads(parts[..|parts| - 1]);
      WrittenLast(parts[..|parts| - 1], parts[|parts| - 1]);
      FrontLast(parts);
    }
  }

  lemma {:induction false} WrittenLast(front: seq<string>, last: string)
    requires front != []
    ensures Written(front + [last]) == Written(front) + "\n\n" + last
  {
    if |front| == 1 {
      assert (front + [last])[1..] == [last];
    } else {
      WrittenLast(front[1..], last);
      assert (front + [last])[1..] == front[1..] + [last];
      assert front[0] + "\n\n" + (Written(front[1..]) + "\n\n" + last)
          == front[0] + "\n\n" + Written(front[1..]) + "\n\n" + last;
    }
  }

  lemma MarkStays(front: seq<Block>, b: Block, ctl: string, ttl: string)
    requires MarkedLast(front, ctl, ttl) && Unmarked(b)
    ensures MarkedLast(front + [b], ctl, ttl)
  {
    if k :| 0 <= k < |front| && LastMarked(front, k, ctl, ttl) {
      assert LastMarked(front + [b], k, ctl, ttl);
    }
  }

  lemma {:induction false} MarkReads(bs: seq<Block>, describe: Block -> string)
    ensures MarkedLast(bs, LastMark(Telling(bs)).0, LastMark(Telling(bs)).1)
  {
    if bs == [] {
    } else {
      var front, b := bs[..|bs| - 1], bs[|bs| - 1];
      MarkReads(front, describe);
      FrontLast(bs);
      ConcatNothing(Telling(front));
      if SayingOf(b) != [] { PartsAppend(Telling(front), b, describe); }
      if Unmarked(b) {
        MarkStays(front, b, LastMark(Telling(front)).0, LastMark(Telling(front)).1);
      } else {
        assert LastMarked(bs, |front|, b.cacheCtl, b.cacheTTL);
      }
    }
  }

  /** A prompt in blocks loses its blank text blocks and nothing else.  A prompt in one text says
      all that its blocks say in words, in order, under the last of their marks, and is no block
      at all when they say nothing. */
  lemma PromptSays(system: seq<Block>, caps: Caps, describe: Block -> string)
    ensures var out, phrases := ShapedSystem(system, caps, describe), Phrases(system, describe);
      && (!caps.systemAsText ==> out == Select(system, SayingOf))
      && (caps.systemAsText && phrases == [] ==> out == [])
      && (caps.systemAsText && phrases != [] ==>
            && |out| == 1 && MarkedLast(system, out[0].cacheCtl, out[0].cacheTTL)
            && out[0].(cacheCtl := "", cacheTTL := "") == EmptyBlock(BlockText).(text := Written(phrases)))
  {
    TellingReads(system);
    PartsRead(system, describe);
    JoinedReads(Phrases(system, describe));
    MarkReads(system, describe);
  }

  // ----- marks -----

  function MarkOf(b: Block): seq<string> { if b.cacheCtl == "" then [] else [b.cacheCtl] }

  /** A block's own mark, and then those of what its result holds. */
  function MarksIn(b: Block): seq<string> {
    MarkOf(b) + (if b.toolResult.Some? then Select(b.toolResult.value.content, MarkOf) else [])
  }

  function ToolMarks(tools: seq<Tool>): seq<string> {
    if tools == [] then []
    else ToolMarks(tools[..|tools| - 1]) + (if tools[|tools| - 1].cacheCtl == "" then [] else [tools[|tools| - 1].cacheCtl])
  }

  lemma OneMark(mark: string)
    ensures Marks([mark]) == if mark == "" then [] else [mark]
  {
    assert [mark][1..] == [];
  }

  lemma {:induction false} ToolMarksRead(tools: seq<Tool>)
    ensures Marks(ToolSlots(tools)) == ToolMarks(tools)
  {
    if tools == [] {
    } else {
      var front, t := tools[..|tools| - 1], tools[|tools| - 1];
      ToolMarksRead(front);
      assert ToolSlots(tools) == ToolSlots(front) + [t.cacheCtl];
      MarksConcat(ToolSlots(front), [t.cacheCtl]);
      OneMark(t.cacheCtl);
    }
  }

  lemma {:induction false} NestedMarksRead(bs: seq<Block>)
    ensures Marks(NestedSlots(bs)) == Select(bs, MarkOf)
  {
    if bs == [] {
    } else {
      var front, b := bs[..|bs| - 1], bs[|bs| - 1];
      NestedMarksRead(front);
      assert NestedSlots(bs) == NestedSlots(front) + [b.cacheCtl];
      MarksConcat(NestedSlots(front), [b.cacheCtl]);
      OneMark(b.cacheCtl);
    }
  }

  lemma BlockMarksRead(b: Block)
    ensures Marks(BlockSlots(b)) == MarksIn(b)
  {
    var nested := if b.toolResult.Some? then NestedSlots(b.toolResult.value.content) else [];
    MarksConcat([b.cacheCtl], nested);
    OneMark(b.cacheCtl);
    if b.toolResult.Some? { NestedMarksRead(b.toolResult.value.content); }
  }

  lemma {:induction false} ContentMarksRead(bs: seq<Block>)
    ensures Marks(ContentSlots(bs)) == Select(bs, MarksIn)
  {
    if bs == [] {
    } else {
      ContentMarksRead(bs[1..]);
      BlockMarksRead(bs[0]);
      MarksConcat(BlockSlots(bs[0]), ContentSlots(bs[1..]));
      SelectConcat([bs[0]], bs[1..], MarksIn);
      SelectOne(bs[0], MarksIn);
      assert bs == [bs[0]] + bs[1..];
    }
  }

  lemma {:induction false} MessageMarksRead(ms: seq<Message>)
    ensures Marks(MessageSlots(ms)) == Select(Flat(ms), MarksIn)
  {
    if ms == [] {
    } else {
      MessageMarksRead(ms[1..]);
      ContentMarksRead(ms[0].content);
      MarksConcat(ContentSlots(ms[0].content), MessageSlots(ms[1..]));
      FlatCons(ms);
      SelectConcat(ms[0].content, Flat(ms[1..]), MarksIn);
    }
  }

  /** The marks counted against the budget are those of the tools, of the system prompt and of the
      messages, with those inside tool results, in the order in which the body is written. */
  lemma MarksCounted(tools: seq<Tool>, system: seq<Block>, ms: seq<Message>)
    ensures Marks(Slots(tools, system, ms)) == ToolMarks(tools) + Select(system, MarksIn) + Select(Flat(ms), MarksIn)
  {
    MarksConcat(ToolSlots(tools) + ContentSlots(system), MessageSlots(ms));
    MarksConcat(ToolSlots(tools), ContentSlots(system));
    ToolMarksRead(tools);
    ContentMarksRead(system);
    MessageMarksRead(ms);
  }

  /** A request without a message gets one that says so, any other keeps its own. */
  lemma SomethingIsSaid(ms: seq<Message>)
    ensures ms != [] ==> Shape.Spoken(ms) == ms
    ensures ms == [] ==> Shape.Spoken(ms) == [Message(User, [TextBlock("(continuing the conversation)")], "", "")]
  {}
}
