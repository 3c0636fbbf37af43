/** What history repair does to what was said: the repairs of backend/ir/sanitize.go as seen by
    whoever reads the history afterwards. */
module Conservation {
  import opened Ir
  import opened Seqs
  import opened Blocks
  import opened Pairing
  import opened ToolDecl
  import opened History

  // ----- what a demoted result says -----

  function Concat(pieces: seq<string>): string {
    if pieces == [] then "" else Concat(pieces[..|pieces| - 1]) + pieces[|pieces| - 1]
  }

  /** Nothing is written for the first `k` children. */
  predicate Wordless(bs: seq<Block>, k: nat)
    requires k <= |bs|
  {
    forall j :: 0 <= j < k ==> bs[j].kind == BlockText && bs[j].text == ""
  }

  /** Child `k` in the text: its own words, or a placeholder that names what it was, set off
      from what stands before it. */
  predicate Stands(piece: string, bs: seq<Block>, k: nat)
    requires k < |bs|
  {
    if bs[k].kind == BlockText then piece == bs[k].text
    else piece == (if Wordless(bs, k) then "" else " ") + "[" + KindName(bs[k].kind) + " omitted]"
  }

  ghost predicate Spelled(pieces: seq<string>, bs: seq<Block>) {
    |pieces| == |bs| && forall k :: 0 <= k < |bs| ==> Stands(pieces[k], bs, k)
  }

  /** `out` is a text that tells the result `b`: whose result it was, and then every child, in
      order. */
  ghost predicate Tells(out: Block, b: Block)
    requires IsResult(b)
  {
    && out == TextBlock(out.text).(cacheCtl := b.cacheCtl)
    && exists pieces :: Spelled(pieces, b.toolResult.value.content)
         && out.text == "[tool result for " + b.toolResult.value.toolUseId + "]: " + Concat(pieces)
  }

  /** The placeholders of different kinds differ, and name the kind as the representation does. */
  lemma KindNamesDiffer(a: BlockKind, b: BlockKind)
    ensures KindName(a) == KindName(b) <==> a == b
    ensures KindName(BlockText) == "text" && KindName(BlockRefusal) == "refusal" && KindName(BlockThinking) == "thinking"
    ensures KindName(BlockImage) == "image" && KindName(BlockAudio) == "audio"
    ensures KindName(BlockDocument) == "document" && KindName(BlockFile) == "file" && KindName(BlockOpaque) == "opaque"
    ensures KindName(BlockToolUse) == "tool_use" && KindName(BlockToolResult) == "tool_result"
    ensures KindName(BlockServerToolUse) == "server_tool_use" && KindName(BlockContainerUpload) == "container_upload"
    ensures KindName(BlockWebSearchToolResult) == "web_search_tool_result"
  {}

  lemma StandsStill(piece: string, bs: seq<Block>, b: Block, k: nat)
    requires k < |bs|
    ensures Stands(piece, bs + [b], k) <==> Stands(piece, bs, k)
  {
    assert (bs + [b])[k] == bs[k];
    assert forall j :: 0 <= j < k ==> (bs + [b])[j] == bs[j];
  }

  /** What the text written so far becomes with one child more. */
  lemma JoinGrows(bs: seq<Block>, piece: string)
    requires bs != [] && Stands(piece, bs, |bs| - 1)
    requires JoinBlockText(bs[..|bs| - 1]) == "" <==> Wordless(bs, |bs| - 1)
    ensures JoinBlockText(bs) == JoinBlockText(bs[..|bs| - 1]) + piece
  {
    var sb, b := JoinBlockText(bs[..|bs| - 1]), bs[|bs| - 1];
    if b.kind != BlockText {
      Associate5(sb, if sb == "" then "" else " ", "[", KindName(b.kind), " omitted]");
    }
  }

  lemma Associate5(a: string, b: string, c: string, d: string, e: string)
    ensures a + b + c + d + e == a + (b + c + d + e)
  {}

  lemma WordlessMore(bs: seq<Block>, sb: string, piece: string)
    requires bs != [] && Stands(piece, bs, |bs| - 1)
    requires sb == "" <==> Wordless(bs, |bs| - 1)
    ensures sb + piece == "" <==> Wordless(bs, |bs|)
  {
    if sb + piece == "" { assert |sb| + |piece| == 0; }
  }

  lemma {:induction false} JoinedSpells(bs: seq<Block>) returns (pieces: seq<string>)
    ensures Spelled(pieces, bs) && JoinBlockText(bs) == Concat(pieces)
    ensures JoinBlockText(bs) == "" <==> Wordless(bs, |bs|)
  {
    if bs == [] {
      pieces := [];
    } else {
      var n := |bs| - 1;
      var before := JoinedSpells(bs[..n]);
      assert Wordless(bs[..n], n) <==> Wordless(bs, n);
      var piece := if bs[n].kind == BlockText then bs[n].text
                   else (if Wordless(bs, n) then "" else " ") + "[" + KindName(bs[n].kind) + " omitted]";
      pieces := before + [piece];
      SpelledMore(before, piece, bs);
      JoinGrows(bs, piece);
      WordlessMore(bs, JoinBlockText(bs[..n]), piece);
      assert pieces[..|pieces| - 1] == before;
    }
  }

  lemma SpelledMore(before: seq<string>, piece: string, bs: seq<Block>)
    requires bs != [] && Spelled(before, bs[..|bs| - 1]) && Stands(piece, bs, |bs| - 1)
    ensures Spelled(before + [piece], bs)
  {
    var front := bs[..|bs| - 1];
    FrontLast(bs);
    forall k | 0 <= k < |front| ensures Stands((before + [piece])[k], bs, k) {
      StandsStill(before[k], front, bs[|bs| - 1], k);
    }
  }

  lemma DemotedTells(b: Block)
    requires IsResult(b)
    ensures Tells(DemoteToText(b), b)
  {
    var pieces := JoinedSpells(b.toolResult.value.content);
    assert Spelled(pieces, b.toolResult.value.content);
  }

  // ----- which results are told, and what else pairing leaves of a history -----

  /** Result `i` of the reading order is kept: some call carries its non-empty id, and no later
      result answers the same call. */
  predicate Standing(bs: seq<Block>, i: nat)
    requires i < |bs| && IsResult(bs[i])
  {
    && ResultId(bs[i]) != "" && ResultId(bs[i]) in UseIds(bs)
    && forall j :: i < j < |bs| && IsResult(bs[j]) ==> ResultId(bs[j]) != ResultId(bs[i])
  }

  ghost predicate RetoldAt(out: Block, bs: seq<Block>, i: nat)
    requires i < |bs|
  {
    if IsResult(bs[i]) && !Standing(bs, i) then Tells(out, bs[i]) else out == bs[i]
  }

  predicate SameShell(a: Message, b: Message) {
    a.role == b.role && a.audioId == b.audioId && a.rest == b.rest && |a.content| == |b.content|
  }

  /** `d` is `ms` with every result that is not kept told as text where it stood. */
  ghost predicate Retold(ms: seq<Message>, d: seq<Message>) {
    && |d| == |ms| && (forall i :: 0 <= i < |ms| ==> SameShell(d[i], ms[i]))
    && |Flat(d)| == |Flat(ms)| && (forall i :: 0 <= i < |Flat(ms)| ==> RetoldAt(Flat(d)[i], Flat(ms), i))
  }

  lemma {:induction false} DemotedShells(ms: seq<Message>, uses: set<string>, kept: set<string>)
    ensures var d := DemoteMessages(ms, uses, kept).out;
      |d| == |ms| && forall i :: 0 <= i < |ms| ==> SameShell(d[i], ms[i])
  {
    if ms == [] {
    } else {
      var m := ms[|ms| - 1];
      DemoteInPlace(m.content, uses, kept);
      DemotedShells(ms[..|ms| - 1], uses, DemoteBlocks(m.content, uses, kept).kept);
    }
  }

  lemma DemotionRetells(ms: seq<Message>, uses: set<string>)
    requires uses == NonEmpty(UseIds(Flat(ms)))
    ensures Retold(ms, DemoteMessages(ms, uses, {}).out)
  {
    var bs, d := Flat(ms), DemoteMessages(ms, uses, {}).out;
    DemotedShells(ms, uses, {});
    DemoteFlat(ms, uses, {});
    DemoteInPlace(bs, uses, {});
    forall i | 0 <= i < |bs| ensures RetoldAt(Flat(d)[i], bs, i) {
      if IsResult(bs[i]) {
        assert Survives(bs, i, uses, {}) <==> Standing(bs, i);
        DemotedTells(bs[i]);
      }
    }
  }

  /** A call that no result answers. */
  predicate Dangling(b: Block, answers: seq<string>) { IsUse(b) && UseId(b) !in answers }

  function HeldOf(answers: seq<string>): Block -> seq<Block> {
    b => if Dangling(b, answers) then [] else [b]
  }

  /** The history without its dangling calls, and without the messages that held nothing else. */
  function Held(ms: seq<Message>, answers: seq<string>): seq<Message> {
    if ms == [] then []
    else
      var front, m := Held(ms[..|ms| - 1], answers), ms[|ms| - 1];
      var content := Select(m.content, HeldOf(answers));
      if content == [] && m.content != [] then front else front + [m.(content := content)]
  }

  function Unresulted(m: Message): Message { m.(content := Skeleton(m.content)) }

  const BARE := Message(User, [], "", "")

  /** The history read without its tool results.  A user message that holds nothing else is
      passed over, since results may need one to be put in. */
  function Spoken(ms: seq<Message>): seq<Message> {
    if ms == [] then []
    else
      var front, m := Spoken(ms[..|ms| - 1]), Unresulted(ms[|ms| - 1]);
      if m == BARE then front else front + [m]
  }

  lemma {:induction false} SpokenConcat(a: seq<Message>, b: seq<Message>)
    ensures Spoken(a + b) == Spoken(a) + Spoken(b)
  {
    if b == [] {
      ConcatNothing(a);
      ConcatNothing(Spoken(a));
    } else {
      ConcatFront(a, b);
      SpokenConcat(a, b[..|b| - 1]);
    }
  }

  lemma SpokenOne(m: Message)
    ensures Spoken([m]) == if Unresulted(m) == BARE then [] else [Unresulted(m)]
  {
    assert [m][..0] == [];
    assert Spoken([m][..0]) == [];
  }

  lemma {:induction false} DroppedIsHeld(ms: seq<Message>, results: map<string, nat>, answers: seq<string>)
    requires Counts(results, answers)
    ensures DropMessages(ms, results).kept == Held(ms, answers)
  {
    if ms == [] {
    } else {
      var m := ms[|ms| - 1];
      DroppedIsHeld(ms[..|ms| - 1], results, answers);
      forall i | 0 <= i < |m.content|
        ensures AnsweredOf(results)(m.content[i]) == HeldOf(answers)(m.content[i])
      {
        CountedIsHeld(m.content[i], results, answers);
      }
      SelectSame(m.content, AnsweredOf(results), HeldOf(answers));
    }
  }

  lemma CountedIsHeld(b: Block, results: map<string, nat>, answers: seq<string>)
    requires Counts(results, answers)
    ensures Unanswered(b, results) <==> Dangling(b, answers)
  {
    if IsUse(b) { assert UseId(b) in results <==> UseId(b) in answers; }
  }

  lemma {:induction false} StrippedIsSpoken(ms: seq<Message>, uses: set<string>)
    ensures Spoken(Strip(ms, uses)) == Spoken(ms)
  {
    if ms == [] {
    } else {
      var front, m := ms[..|ms| - 1], ms[|ms| - 1];
      StrippedIsSpoken(front, uses);
      StripContent(m.content, uses);
      assert Strip(ms, uses)[..|front|] == Strip(front, uses);
    }
  }

  /** Only results are laid in between. */
  lemma {:induction false} LaidOutIsSpoken(ms: seq<Message>, groups: seq<seq<Block>>, carry: seq<Block>)
    requires |groups| == |ms| && Skeleton(carry) == []
    requires forall i :: 0 <= i < |groups| ==> Skeleton(groups[i]) == []
    ensures Spoken(Layout(ms, groups, carry)) == Spoken(ms)
  {
    if ms == [] {
      SpokenOne(Message(User, carry, "", ""));
    } else {
      LaidOutIsSpoken(ms[1..], groups[1..], groups[0]);
      HostIsSpoken(carry, ms[0]);
      SpokenConcat(Host(carry, ms[0]), Layout(ms[1..], groups[1..], groups[0]));
      assert ms == [ms[0]] + ms[1..];
      SpokenConcat([ms[0]], ms[1..]);
    }
  }

  lemma HostIsSpoken(carry: seq<Block>, m: Message)
    requires Skeleton(carry) == []
    ensures Spoken(Host(carry, m)) == Spoken([m])
  {
    var host := Message(User, carry, "", "");
    if carry != [] && m.role != User {
      assert Host(carry, m) == [host] + [m];
      SpokenConcat([host], [m]);
      SpokenOne(host);
    } else if carry != [] {
      IdsConcat(carry, m.content);
      ConcatNothing(Skeleton(m.content));
      SpokenOne(m.(content := carry + m.content));
      SpokenOne(m);
    }
  }

  lemma ReorderedIsSpoken(ms: seq<Message>)
    requires AllAnswer(ms) && NonEmpty(UseIds(Flat(ms))) == NonEmpty(ResultIds(Flat(ms)))
    ensures Spoken(Reorder(ms).messages) == Spoken(ms)
  {
    var uses := IndexTools(ms).uses;
    var pulled := Pulled(Flat(ms), uses.Keys);
    IndexToolsRecords(ms);
    PulledRecords(Flat(ms), uses.Keys);
    forall id | id in uses ensures id in pulled { assert id in NonEmpty(UseIds(Flat(ms))); }
    GroupsRecorded(ms, uses, pulled);
    StrippedIsSpoken(ms, uses.Keys);
    LaidOutIsSpoken(Strip(ms, uses.Keys), Groups(ms, uses, pulled), []);
  }

  /** What pairing leaves of a history, told without the functions that compute it.  `d` is the
      history with the results that do not count told as text in their places.  Message by
      message, everything but the results is then what it was, less the calls nobody answers;
      and the results that count are there, unchanged and once each. */
  ghost predicate Conserved(ms: seq<Message>, out: seq<Message>, d: seq<Message>) {
    && Retold(ms, d)
    && Spoken(out) == Spoken(Held(d, ResultIds(Flat(ms))))
    && (forall b :: b in Results(Flat(out)) <==> b in Results(Flat(d)))
    && Distinct(ResultIds(Flat(out)))
  }

  /** Pairing conserves every history in which there is anything to pair. */
  lemma PairToolsTells(ms: seq<Message>) returns (d: seq<Message>)
    requires IndexFinds(ms)
    ensures Conserved(ms, PairTools(ms).messages, d)
    ensures d == DemotedOf(ms).out && DroppedOf(ms).kept == Held(d, ResultIds(Flat(ms)))
  {
    d := DemotedOf(ms).out;
    var ix := IndexTools(ms);
    IndexToolsRecords(ms);
    DemotionRetells(ms, ix.uses.Keys);
    DemoteFlat(ms, ix.uses.Keys, {});
    PairToolsConserves(ms);
    DroppedIsHeld(d, ix.results, ResultIds(Flat(ms)));
    DroppedState(ms);
    TouchedState(ms);
    ReorderedIsSpoken(DroppedOf(ms).kept);
  }

  lemma StandingStays(ms: seq<Message>, out: seq<Message>, d: seq<Message>, i: nat)
    requires Conserved(ms, out, d) && i < |Flat(ms)| && IsResult(Flat(ms)[i]) && Standing(Flat(ms), i)
    ensures Flat(ms)[i] in Flat(out)
  {
    assert RetoldAt(Flat(d)[i], Flat(ms), i);
    ResultsMember(Flat(d), Flat(d)[i]);
    ResultsMember(Flat(out), Flat(d)[i]);
  }

  lemma ToldStays(ms: seq<Message>, out: seq<Message>, d: seq<Message>, i: nat)
    requires Conserved(ms, out, d) && i < |Flat(ms)| && IsResult(Flat(ms)[i]) && !Standing(Flat(ms), i)
    ensures Flat(d)[i] in Flat(out) && Tells(Flat(d)[i], Flat(ms)[i])
  {
    assert RetoldAt(Flat(d)[i], Flat(ms), i);
    SpokenFlat(out);
    SpokenFlat(Held(d, ResultIds(Flat(ms))));
    HeldFlat(d, ResultIds(Flat(ms)));
    StaysSpoken(Flat(d), ResultIds(Flat(ms)), i);
    SelectMember(Flat(out), NonResultOf, Flat(d)[i]);
  }

  /** No tool result is lost: each one of the history is there unchanged, or a text tells it. */
  lemma NoResultIsLost(ms: seq<Message>, i: nat) returns (b: Block)
    requires i < |Flat(ms)| && IsResult(Flat(ms)[i])
    ensures b in Flat(PairTools(ms).messages)
    ensures if Standing(Flat(ms), i) then b == Flat(ms)[i] else Tells(b, Flat(ms)[i])
  {
    assert IndexFinds(ms) by {
      assert ResultId(Flat(ms)[i]) in ResultOf(Flat(ms)[i]);
      SelectMember(Flat(ms), ResultOf, ResultId(Flat(ms)[i]));
    }
    var d := PairToolsTells(ms);
    if Standing(Flat(ms), i) {
      b := Flat(ms)[i];
      StandingStays(ms, PairTools(ms).messages, d, i);
    } else {
      b := Flat(d)[i];
      ToldStays(ms, PairTools(ms).messages, d, i);
    }
  }

  lemma {:induction false} SpokenFlat(ms: seq<Message>)
    ensures Flat(Spoken(ms)) == Skeleton(Flat(ms))
  {
    if ms == [] {
    } else {
      var front, m := ms[..|ms| - 1], ms[|ms| - 1];
      SpokenFlat(front);
      IdsConcat(Flat(front), m.content);
      if Unresulted(m) == BARE {
        ConcatNothing(Skeleton(Flat(front)));
      } else {
        assert (Spoken(front) + [Unresulted(m)])[..|Spoken(front)|] == Spoken(front);
      }
    }
  }

  lemma {:induction false} HeldFlat(ms: seq<Message>, answers: seq<string>)
    ensures Flat(Held(ms, answers)) == Select(Flat(ms), HeldOf(answers))
  {
    if ms == [] {
    } else {
      var front, m := ms[..|ms| - 1], ms[|ms| - 1];
      HeldFlat(front, answers);
      SelectConcat(Flat(front), m.content, HeldOf(answers));
      var content := Select(m.content, HeldOf(answers));
      ConcatNothing(Flat(Held(front, answers)));
      assert (Held(front, answers) + [m.(content := content)])[..|Held(front, answers)|] == Held(front, answers);
    }
  }

  lemma StaysSpoken(bs: seq<Block>, answers: seq<string>, i: nat)
    requires i < |bs| && !IsResult(bs[i]) && !IsUse(bs[i])
    ensures bs[i] in Skeleton(Select(bs, HeldOf(answers)))
  {
    var b, held := bs[i], Select(bs, HeldOf(answers));
    assert b in HeldOf(answers)(b);
    SelectMember(bs, HeldOf(answers), b);
    var j :| 0 <= j < |held| && held[j] == b;
    assert b in NonResultOf(held[j]);
    SelectMember(held, NonResultOf, b);
  }

  /** A result is told in one way only. */
  lemma ToldInOneWay(a: Block, b: Block, result: Block)
    requires IsResult(result) && Tells(a, result) && Tells(b, result)
    ensures a == b
  {
    var bs := result.toolResult.value.content;
    var x :| Spelled(x, bs) && a.text == "[tool result for " + ResultId(result) + "]: " + Concat(x);
    var y :| Spelled(y, bs) && b.text == "[tool result for " + ResultId(result) + "]: " + Concat(y);
    forall k | 0 <= k < |bs| ensures x[k] == y[k] { assert Stands(x[k], bs, k) && Stands(y[k], bs, k); }
    assert x == y;
  }

  /** A result of a few words and a picture, and what the text that tells it reads. */
  lemma ToldReads(t: Block, id: string, words: string)
    requires words != ""
    requires Tells(t, EmptyBlock(BlockToolResult).(toolResult := Some(ToolResult(
      id, ToolFunction, [TextBlock(words), EmptyBlock(BlockImage)], false, ""))))
    ensures t.text == "[tool result for " + id + "]: " + (words + (" " + "[" + "image" + " omitted]"))
  {
    var bs := [TextBlock(words), EmptyBlock(BlockImage)];
    var pieces :| Spelled(pieces, bs) && t.text == "[tool result for " + id + "]: " + Concat(pieces);
    assert Stands(pieces[0], bs, 0) && Stands(pieces[1], bs, 1);
    assert !Wordless(bs, 1) by { assert bs[0].text != ""; }
    assert pieces[..1] == [words] && pieces[..1][..0] == [];
    assert Concat(pieces[..1]) == words;
  }

  // ----- what pruning and merging leave of a history -----

  /** One thing said: a block by its speaker, or a recording played again. */
  datatype Voice = Says(role: Role, block: Block) | Plays(role: Role, audioId: string)

  /** Texts of nothing but white space say nothing. */
  function SaysOf(role: Role): Block -> seq<Voice> {
    (b: Block) => if b.kind == BlockText && IsBlank(b.text) then [] else [Says(role, b)]
  }

  function VoicesOf(m: Message): seq<Voice> {
    (if m.audioId != "" then [Plays(m.role, m.audioId)] else []) + Select(m.content, SaysOf(m.role))
  }

  function Voices(ms: seq<Message>): seq<Voice> {
    if ms == [] then [] else VoicesOf(ms[0]) + Voices(ms[1..])
  }

  lemma {:induction false} VoicesConcat(a: seq<Message>, b: seq<Message>)
    ensures Voices(a + b) == Voices(a) + Voices(b)
  {
    if a == [] {
      assert a + b == b;
    } else {
      assert (a + b)[1..] == a[1..] + b;
      VoicesConcat(a[1..], b);
    }
  }

  lemma {:induction false} BlankSaysNothing(content: seq<Block>, role: Role)
    requires IsEmptyContent(content)
    ensures Select(content, SaysOf(role)) == []
  {
    if content == [] {
    } else {
      BlankSaysNothing(content[..|content| - 1], role);
    }
  }

  lemma {:induction false} SolidVoices(ms: seq<Message>)
    ensures Voices(Solid(ms)) == Voices(ms)
  {
    if ms == [] {
    } else {
      SolidVoices(ms[1..]);
      if IsEmptyMessage(ms[0]) {
        BlankSaysNothing(ms[0].content, ms[0].role);
        assert VoicesOf(ms[0]) == [] && Solid(ms) == Solid(ms[1..]);
      } else {
        assert ([ms[0]] + Solid(ms[1..]))[1..] == Solid(ms[1..]);
      }
    }
  }

  lemma BlankLineSaysNothing(content: seq<Block>, role: Role)
    ensures Select(content + [TextBlock("\n\n")], SaysOf(role)) == Select(content, SaysOf(role))
  {
    var line := TextBlock("\n\n");
    SelectConcat(content, [line], SaysOf(role));
    SelectOne(line, SaysOf(role));
    assert IsBlank(line.text);
    ConcatNothing(Select(content, SaysOf(role)));
  }

  lemma JoinSpeaks(a: Message, b: Message)
    ensures Select(Join(a, b).content, SaysOf(a.role)) == Select(a.content, SaysOf(a.role)) + Select(b.content, SaysOf(a.role))
  {
    if NeedsSeparator(a.content, b.content) {
      var line := TextBlock("\n\n");
      BlankLineSaysNothing(a.content, a.role);
      SelectConcat(a.content + [line], b.content, SaysOf(a.role));
    } else {
      ConcatNothing(a.content);
      SelectConcat(a.content, b.content, SaysOf(a.role));
    }
  }

  lemma JoinVoices(a: Message, b: Message)
    requires Mergeable(a, b)
    ensures VoicesOf(Join(a, b)) == VoicesOf(a) + VoicesOf(b)
  {
    JoinSpeaks(a, b);
  }

  lemma {:induction false} MergeVoices(ms: seq<Message>)
    ensures Voices(Merge(ms)) == Voices(ms)
    decreases |ms|
  {
    if |ms| < 2 {
    } else if Mergeable(ms[0], ms[1]) {
      var joined := [Join(ms[0], ms[1])] + ms[2..];
      MergeVoices(joined);
      JoinVoices(ms[0], ms[1]);
      assert joined[1..] == ms[2..] && ms[1..][1..] == ms[2..];
      Associate(VoicesOf(ms[0]), VoicesOf(ms[1]), Voices(ms[2..]));
    } else {
      MergeVoices(ms[1..]);
      assert Merge(ms)[1..] == Merge(ms[1..]);
    }
  }

  /** The same words, but for white space missing at the end. */
  predicate Shortened(now: Voice, was: Voice) {
    && now.Says? && was.Says? && now.role == was.role == Assistant
    && was.block.kind == BlockText && now.block == was.block.(text := now.block.text)
    && now.block.text <= was.block.text
    && forall i :: |now.block.text| <= i < |was.block.text| ==> was.block.text[i] in " \t\r\n"
  }

  /** The same things said, the last one shortened at most. */
  predicate SameVoices(now: seq<Voice>, was: seq<Voice>) {
    || now == was
    || (was != [] && |now| == |was| && now[..|now| - 1] == was[..|was| - 1]
        && Shortened(now[|now| - 1], was[|was| - 1]))
  }

  lemma TrimmedText(was: Block, now: Block)
    requires was.kind == BlockText && now == was.(text := TrimRight(was.text))
    ensures SameVoices(SaysOf(Assistant)(now), SaysOf(Assistant)(was))
  {
    TrimKeepsWords(was.text);
    if !IsBlank(was.text) {
      forall i | |now.text| <= i < |was.text| ensures was.text[i] in " \t\r\n" { assert IsTrimmed(was.text[i]); }
      assert Shortened(Says(Assistant, now), Says(Assistant, was));
    }
  }

  lemma SaysLast(content: seq<Block>, role: Role, b: Block)
    ensures Select(content + [b], SaysOf(role)) == Select(content, SaysOf(role)) + SaysOf(role)(b)
  {
    SelectConcat(content, [b], SaysOf(role));
    SelectOne(b, SaysOf(role));
  }

  lemma TrimmedContent(content: seq<Block>)
    ensures SameVoices(Select(TrimLast(content), SaysOf(Assistant)), Select(content, SaysOf(Assistant)))
  {
    if content != [] && content[|content| - 1].kind == BlockText {
      var front, last := content[..|content| - 1], content[|content| - 1];
      var b := last.(text := TrimRight(last.text));
      FrontLast(content);
      SaysLast(front, Assistant, last);
      TrimmedText(last, b);
      if TrimLast(content) == front {
        assert IsBlank(last.text) by { TrimKeepsWords(last.text); }
        ConcatNothing(Select(front, SaysOf(Assistant)));
      } else {
        assert TrimLast(content) == front + [b];
        SaysLast(front, Assistant, b);
        SameVoicesBehind(Select(front, SaysOf(Assistant)), SaysOf(Assistant)(b), SaysOf(Assistant)(last));
      }
    }
  }

  lemma TrimmedVoices(content: seq<Block>, m: Message)
    requires m.role == Assistant && content == TrimLast(m.content)
    ensures SameVoices(VoicesOf(m.(content := content)), VoicesOf(m))
  {
    TrimmedContent(m.content);
    SameVoicesBehind(if m.audioId != "" then [Plays(m.role, m.audioId)] else [],
                     Select(content, SaysOf(m.role)), Select(m.content, SaysOf(m.role)));
  }

  lemma TrimKeepsWords(s: string)
    ensures IsBlank(TrimRight(s)) <==> IsBlank(s)
  {
    var t := TrimRight(s);
    assert forall i :: 0 <= i < |t| ==> t[i] == s[i];
    assert forall i :: |t| <= i < |s| ==> IsSpace(s[i]);
  }

  lemma {:induction false} TrimPrefillVoices(ms: seq<Message>)
    ensures SameVoices(Voices(TrimPrefill(ms)), Voices(ms))
  {
    if EndsLoose(ms) {
      var n := |ms| - 1;
      var m := ms[n].(content := TrimLast(ms[n].content));
      FrontLast(ms);
      VoicesConcat(ms[..n], [ms[n]]);
      assert TrimPrefill(ms) == ms[..n] + [m];
      VoicesConcat(ms[..n], [m]);
      TrimmedVoices(m.content, ms[n]);
      VoicesAlone(m);
      VoicesAlone(ms[n]);
      SameVoicesBehind(Voices(ms[..n]), VoicesOf(m), VoicesOf(ms[n]));
    }
  }

  lemma VoicesAlone(m: Message)
    ensures Voices([m]) == VoicesOf(m)
  {
    assert [m][1..] == [];
  }

  lemma SameVoicesBehind(front: seq<Voice>, now: seq<Voice>, was: seq<Voice>)
    requires SameVoices(now, was)
    ensures SameVoices(front + now, front + was)
  {
    if now != was {
      ConcatFront(front, now);
      ConcatFront(front, was);
    }
  }

  /** Pruning and merging take nothing away but white space: who said what, and which recordings
      are played again, in the same order; only the last text of all may end sooner. */
  lemma PrunedAndMergedSayTheSame(ms: seq<Message>)
    ensures SameVoices(Voices(Merge(PruneEmpty(ms).0)), Voices(ms))
  {
    DropEmptyIsSolid(TrimPrefill(ms));
    SolidVoices(TrimPrefill(ms));
    MergeVoices(PruneEmpty(ms).0);
    TrimPrefillVoices(ms);
  }

  /** Neighbouring texts that are not run together. */
  predicate Apart(a: Block, b: Block) {
    a.kind == BlockText && b.kind == BlockText && a.text != "" && b.text != ""
    ==> a.text[|a.text| - 1] in " \t\r\n" || b.text[0] in " \t\r\n"
  }

  predicate AllApart(bs: seq<Block>) {
    forall i :: 0 <= i < |bs| - 1 ==> Apart(bs[i], bs[i + 1])
  }

  predicate EachApart(ms: seq<Message>) { forall i :: 0 <= i < |ms| ==> AllApart(ms[i].content) }

  lemma ApartConcat(a: seq<Block>, b: seq<Block>)
    requires AllApart(a) && AllApart(b) && (a != [] && b != [] ==> Apart(a[|a| - 1], b[0]))
    ensures AllApart(a + b)
  {
    var bs := a + b;
    forall i | 0 <= i < |bs| - 1 ensures Apart(bs[i], bs[i + 1]) {
      if i + 1 < |a| {
      } else if i < |a| {
        assert bs[i] == a[|a| - 1] && bs[i + 1] == b[0];
      } else {
        assert bs[i] == b[i - |a|] && bs[i + 1] == b[i - |a| + 1];
      }
    }
  }

  lemma JoinApart(a: Message, b: Message)
    requires AllApart(a.content) && AllApart(b.content)
    ensures AllApart(Join(a, b).content)
  {
    if NeedsSeparator(a.content, b.content) {
      ApartConcat(a.content, [TextBlock("\n\n")]);
      ApartConcat(a.content + [TextBlock("\n\n")], b.content);
    } else {
      ConcatNothing(a.content);
      ApartConcat(a.content, b.content);
    }
  }

  /** Merging runs no two texts together. */
  lemma {:induction false} MergeKeepsApart(ms: seq<Message>)
    requires EachApart(ms)
    ensures EachApart(Merge(ms))
    decreases |ms|
  {
    if |ms| < 2 {
    } else if Mergeable(ms[0], ms[1]) {
      JoinApart(ms[0], ms[1]);
      MergeKeepsApart([Join(ms[0], ms[1])] + ms[2..]);
    } else {
      MergeKeepsApart(ms[1..]);
    }
  }

  /** Messages that stay apart: others speak, or one of them refers to a recording. */
  predicate Parts(a: Message, b: Message) { a.role != b.role || a.audioId != "" || b.audioId != "" }

  /** How many messages up to the first two that stay apart. */
  function RunOf(ms: seq<Message>): (n: nat)
    requires ms != []
    ensures 1 <= n <= |ms|
  {
    if |ms| == 1 || Parts(ms[0], ms[1]) then 1 else 1 + RunOf(ms[1..])
  }

  /** A blank line where two texts would touch, and nothing anywhere else. */
  function Between(prev: seq<Block>, next: seq<Block>): seq<Block> {
    if prev != [] && next != [] && !Apart(prev[|prev| - 1], next[0])
    then [EmptyBlock(BlockText).(text := "\n\n")] else []
  }

  /** The contents one after the other. */
  function Glued(ms: seq<Message>): seq<Block> {
    if ms == [] then []
    else
      var front, last := Glued(ms[..|ms| - 1]), ms[|ms| - 1].content;
      front + Between(front, last) + last
  }

  /** Each run of messages has become one: the first of them, with the contents of all. */
  predicate ByRuns(out: seq<Message>, ms: seq<Message>)
    decreases |ms|
  {
    if ms == [] then out == []
    else
      && out != [] && out[0] == ms[0].(content := Glued(ms[..RunOf(ms)]))
      && ByRuns(out[1..], ms[RunOf(ms)..])
  }

  lemma GluedOne(m: Message)
    ensures Glued([m]) == m.content
  {
    assert [m][..0] == [];
    ConcatNothing(m.content);
  }

  lemma GluedPair(a: Message, b: Message)
    ensures Glued([a, b]) == Join(a, b).content
  {
    GluedOne(a);
    assert [a, b][..1] == [a];
  }

  /** Joining the first two in advance makes no difference. */
  lemma {:induction false} GluedJoin(a: Message, b: Message, rest: seq<Message>)
    ensures Glued([Join(a, b)] + rest) == Glued([a, b] + rest)
  {
    if rest == [] {
      GluedPair(a, b);
      GluedOne(Join(a, b));
      ConcatNothing([Join(a, b)]);
      ConcatNothing([a, b]);
    } else {
      GluedJoin(a, b, rest[..|rest| - 1]);
      ConcatFront([Join(a, b)], rest);
      ConcatFront([a, b], rest);
    }
  }

  lemma RunJoins(a: Message, b: Message, rest: seq<Message>)
    requires !Parts(a, b)
    ensures RunOf([a, b] + rest) == RunOf([Join(a, b)] + rest) + 1
  {
    assert ([a, b] + rest)[1..] == [b] + rest && ([b] + rest)[1..] == rest && ([Join(a, b)] + rest)[1..] == rest;
  }

  /** Two at the front taken as one. */
  lemma OneForTwo<T>(x: T, a: T, b: T, rest: seq<T>, n: nat)
    requires 1 <= n <= |rest| + 1
    ensures ([x] + rest)[..n] == [x] + rest[..n - 1] && ([a, b] + rest)[..n + 1] == [a, b] + rest[..n - 1]
    ensures ([x] + rest)[n..] == rest[n - 1..] && ([a, b] + rest)[n + 1..] == rest[n - 1..]
  {}

  lemma JoinedRuns(a: Message, b: Message, rest: seq<Message>, out: seq<Message>)
    requires !Parts(a, b) && ByRuns(out, [Join(a, b)] + rest)
    ensures ByRuns(out, [a, b] + rest)
  {
    var n := RunOf([Join(a, b)] + rest);
    RunJoins(a, b, rest);
    OneForTwo(Join(a, b), a, b, rest, n);
    GluedJoin(a, b, rest[..n - 1]);
  }

  /** Merging makes each run of messages by one side, without recordings, into one message, with a
      blank line exactly where two texts would touch; and it does nothing else. */
  lemma {:induction false} MergedByRuns(ms: seq<Message>)
    ensures ByRuns(Merge(ms), ms)
    decreases |ms|
  {
    if ms == [] {
    } else if |ms| == 1 || Parts(ms[0], ms[1]) {
      GluedOne(ms[0]);
      assert ms[..1] == [ms[0]];
      if |ms| > 1 { MergedByRuns(ms[1..]); }
    } else {
      MergedByRuns([Join(ms[0], ms[1])] + ms[2..]);
      JoinedRuns(ms[0], ms[1], ms[2..], Merge(ms));
      assert ms == [ms[0], ms[1]] + ms[2..];
    }
  }

  // ----- all repairs together -----

  /** What all repairs leave of a history, told without the functions that compute it: pairing
      conserves it, and what is said after pairing stays said. */
  ghost predicate Conserves(ms: seq<Message>, out: seq<Message>) {
    exists paired, d :: ConservedBy(ms, paired, d) && SameVoices(Voices(out), Voices(paired))
  }

  /** A history in which there is nothing to pair is left alone. */
  ghost predicate ConservedBy(ms: seq<Message>, paired: seq<Message>, d: seq<Message>) {
    if IndexFinds(ms) then Conserved(ms, paired, d) else paired == d == ms
  }

  lemma RepairedConserves(ms: seq<Message>)
    ensures Conserves(ms, Repaired(ms))
  {
    var paired, d := PairTools(ms).messages, ms;
    if IndexFinds(ms) { d := PairToolsTells(ms); } else { UntouchedState(ms); }
    assert ConservedBy(ms, paired, d);
    PrunedAndMergedSayTheSame(paired);
  }
}
