/** Pairing of tool calls with tool results: `pairTools` in backend/ir/sanitize.go.

    The functions here say what each of its four stages computes; the lemmas say what the
    stages achieve together.  `Sanitize` proves its loops against these functions. */
module Pairing {
  import opened Ir
  import opened Seqs
  import opened Blocks

  datatype Note =
    | DuplicateUse(id: string) | OrphanDemoted(id: string) | DuplicateDemoted(id: string)
    | UseDropped(id: string) | MessageDropped(role: Role) | ResultsMoved(ids: set<string>)

  // ----- stage 1: the global index -----

  datatype Site = Site(msg: nat, block: nat)

  datatype Index = Index(uses: map<string, Site>, results: map<string, nat>, dups: seq<Note>)

  const EMPTY_INDEX := Index(map[], map[], [])

  function CountIn(results: map<string, nat>, id: string): nat {
    if id in results then results[id] else 0
  }

  function IndexBlock(ix: Index, b: Block, site: Site): Index {
    if b.kind == BlockToolUse then
      if IsUse(b) && UseId(b) != "" then
        Index(ix.uses[UseId(b) := site], ix.results,
              if UseId(b) in ix.uses then ix.dups + [DuplicateUse(UseId(b))] else ix.dups)
      else ix
    else if IsResult(b) then
      ix.(results := ix.results[ResultId(b) := CountIn(ix.results, ResultId(b)) + 1])
    else ix
  }

  function IndexBlocks(ix: Index, bs: seq<Block>, mi: nat, n: nat): Index
    requires n <= |bs|
  {
    if n == 0 then ix else IndexBlock(IndexBlocks(ix, bs, mi, n - 1), bs[n - 1], Site(mi, n - 1))
  }

  function IndexMessages(ms: seq<Message>, n: nat): Index
    requires n <= |ms|
  {
    if n == 0 then EMPTY_INDEX
    else IndexBlocks(IndexMessages(ms, n - 1), ms[n - 1].content, n - 1, |ms[n - 1].content|)
  }

  function IndexTools(ms: seq<Message>): Index { IndexMessages(ms, |ms|) }

  // ----- stage 2: orphaned and repeated results become text -----

  function KindName(kind: BlockKind): string {
    match kind
    case BlockText => "text"
    case BlockImage => "image"
    case BlockAudio => "audio"
    case BlockDocument => "document"
    case BlockFile => "file"
    case BlockToolUse => "tool_use"
    case BlockToolResult => "tool_result"
    case BlockThinking => "thinking"
    case BlockServerToolUse => "server_tool_use"
    case BlockWebSearchToolResult => "web_search_tool_result"
    case BlockContainerUpload => "container_upload"
    case BlockRefusal => "refusal"
    case BlockOpaque => "opaque"
  }

  function JoinBlockText(bs: seq<Block>): string {
    if bs == [] then ""
    else
      var sb, b := JoinBlockText(bs[..|bs| - 1]), bs[|bs| - 1];
      if b.kind == BlockText then sb + b.text
      else sb + (if |sb| > 0 then " " else "") + "[" + KindName(b.kind) + " omitted]"
  }

  function DemoteToText(b: Block): Block
    requires IsResult(b)
  {
    TextBlock("[tool result for " + ResultId(b) + "]: " + JoinBlockText(b.toolResult.value.content))
    .(cacheCtl := b.cacheCtl)
  }

  datatype Demoted<T> = Demoted(out: T, kept: set<string>, notes: seq<Note>)

  function DemoteBlock(b: Block, uses: set<string>, kept: set<string>): Demoted<Block> {
    if !IsResult(b) then Demoted(b, kept, [])
    else if ResultId(b) !in uses then Demoted(DemoteToText(b), kept, [OrphanDemoted(ResultId(b))])
    else if ResultId(b) in kept then Demoted(DemoteToText(b), kept, [DuplicateDemoted(ResultId(b))])
    else Demoted(b, kept + {ResultId(b)}, [])
  }

  /** Walks backwards, so that the last copy of a repeated result is the one kept. */
  function DemoteBlocks(bs: seq<Block>, uses: set<string>, kept: set<string>): Demoted<seq<Block>> {
    if bs == [] then Demoted([], kept, [])
    else
      var last := DemoteBlock(bs[|bs| - 1], uses, kept);
      var front := DemoteBlocks(bs[..|bs| - 1], uses, last.kept);
      Demoted(front.out + [last.out], front.kept, last.notes + front.notes)
  }

  function DemoteMessages(ms: seq<Message>, uses: set<string>, kept: set<string>): Demoted<seq<Message>> {
    if ms == [] then Demoted([], kept, [])
    else
      var m := ms[|ms| - 1];
      var last := DemoteBlocks(m.content, uses, kept);
      var front := DemoteMessages(ms[..|ms| - 1], uses, last.kept);
      Demoted(front.out + [m.(content := last.out)], front.kept, last.notes + front.notes)
  }

  // ----- stage 3: calls nobody answered disappear -----

  predicate Unanswered(b: Block, results: map<string, nat>) {
    IsUse(b) && CountIn(results, UseId(b)) == 0
  }

  function AnsweredOf(results: map<string, nat>): Block -> seq<Block> {
    b => if Unanswered(b, results) then [] else [b]
  }

  function DropNotesOf(results: map<string, nat>): Block -> seq<Note> {
    b => if Unanswered(b, results) then [UseDropped(UseId(b))] else []
  }

  datatype Dropped = Dropped(kept: seq<Message>, notes: seq<Note>)

  function DropOne(front: Dropped, m: Message, results: map<string, nat>): Dropped {
    var content := Select(m.content, AnsweredOf(results));
    var notes := front.notes + Select(m.content, DropNotesOf(results));
    if content == [] && m.content != [] then Dropped(front.kept, notes + [MessageDropped(m.role)])
    else Dropped(front.kept + [m.(content := content)], notes)
  }

  function DropMessages(ms: seq<Message>, results: map<string, nat>): Dropped {
    if ms == [] then Dropped([], [])
    else DropOne(DropMessages(ms[..|ms| - 1], results), ms[|ms| - 1], results)
  }

  // ----- stage 4: results move behind the message that made the calls -----

  predicate Pullable(b: Block, uses: set<string>) { IsResult(b) && ResultId(b) in uses }

  function UnpulledOf(uses: set<string>): Block -> seq<Block> {
    b => if Pullable(b, uses) then [] else [b]
  }

  /** Takes every answered result out of its message. */
  function Strip(ms: seq<Message>, uses: set<string>): (out: seq<Message>)
    ensures |out| == |ms|
  {
    if ms == [] then []
    else
      var m := ms[|ms| - 1];
      Strip(ms[..|ms| - 1], uses) + [m.(content := Select(m.content, UnpulledOf(uses)))]
  }

  /** The results taken out, by the id they answer. */
  function Pulled(bs: seq<Block>, uses: set<string>): map<string, Block> {
    if bs == [] then map[]
    else
      var front, b := Pulled(bs[..|bs| - 1], uses), bs[|bs| - 1];
      if Pullable(b, uses) then front[ResultId(b) := b] else front
  }

  /** The ids whose indexed call sits in message `mi`, in call order. */
  function CallOrder(bs: seq<Block>, mi: nat, uses: map<string, Site>, n: nat): seq<string>
    requires n <= |bs|
  {
    if n == 0 then []
    else
      var b := bs[n - 1];
      CallOrder(bs, mi, uses, n - 1) +
      (if IsUse(b) && UseId(b) in uses && uses[UseId(b)] == Site(mi, n - 1) then [UseId(b)] else [])
  }

  function Group(ids: seq<string>, pulled: map<string, Block>): seq<Block> {
    if ids == [] then []
    else
      var id := ids[|ids| - 1];
      Group(ids[..|ids| - 1], pulled) + (if id in pulled then [pulled[id]] else [])
  }

  function GroupAt(ms: seq<Message>, mi: nat, uses: map<string, Site>, pulled: map<string, Block>): seq<Block>
    requires mi < |ms|
  {
    Group(CallOrder(ms[mi].content, mi, uses, |ms[mi].content|), pulled)
  }

  function Groups(ms: seq<Message>, uses: map<string, Site>, pulled: map<string, Block>): (gs: seq<seq<Block>>)
    ensures |gs| == |ms|
    ensures forall i :: 0 <= i < |ms| ==> gs[i] == GroupAt(ms, i, uses, pulled)
  {
    seq(|ms|, i requires 0 <= i < |ms| => GroupAt(ms, i, uses, pulled))
  }

  /** `carry` led into by the message that hosts it: the message itself when it is a user
      message, a fresh user message in front of it otherwise. */
  function Host(carry: seq<Block>, m: Message): seq<Message> {
    if carry == [] then [m]
    else if m.role == User then [m.(content := carry + m.content)]
    else [Message(User, carry, "", ""), m]
  }

  /** Lays messages out so that `carry` leads the first one and each group follows its own
      message. */
  function Layout(ms: seq<Message>, groups: seq<seq<Block>>, carry: seq<Block>): seq<Message>
    requires |groups| == |ms|
  {
    if ms == [] then if carry == [] then [] else [Message(User, carry, "", "")]
    else Host(carry, ms[0]) + Layout(ms[1..], groups[1..], groups[0])
  }

  datatype BlockShape = BlockShape(kind: BlockKind, id: Option<string>)

  function ShapeOf(b: Block): seq<BlockShape> {
    [BlockShape(b.kind, if b.toolUse.Some? then Some(b.toolUse.value.id)
                        else if b.toolResult.Some? then Some(b.toolResult.value.toolUseId) else None)]
  }

  /** Roles, block kinds and tool ids: what `snapshotLayout` writes down. */
  function Snapshot(ms: seq<Message>): seq<(Role, seq<BlockShape>)> {
    if ms == [] then []
    else Snapshot(ms[..|ms| - 1]) + [(ms[|ms| - 1].role, Select(ms[|ms| - 1].content, ShapeOf))]
  }

  datatype Outcome = Outcome(messages: seq<Message>, notes: seq<Note>)

  function Reorder(ms: seq<Message>): Outcome {
    var uses := IndexTools(ms).uses;
    if |uses| == 0 then Outcome(ms, [])
    else
      var pulled := Pulled(Flat(ms), uses.Keys);
      var stripped := Strip(ms, uses.Keys);
      if |pulled| == 0 then Outcome(stripped, [])
      else
        var out := Layout(stripped, Groups(ms, uses, pulled), []);
        Outcome(out, if Snapshot(ms) == Snapshot(out) then [] else [ResultsMoved(pulled.Keys)])
  }

  function DemotedOf(ms: seq<Message>): Demoted<seq<Message>> {
    DemoteMessages(ms, IndexTools(ms).uses.Keys, {})
  }

  function DroppedOf(ms: seq<Message>): Dropped {
    DropMessages(DemotedOf(ms).out, IndexTools(ms).results)
  }

  /** `pairTools` as a whole. */
  function PairTools(ms: seq<Message>): Outcome {
    var ix := IndexTools(ms);
    if |ix.uses| == 0 && |ix.results| == 0 then Outcome(ms, [])
    else
      var moved := Reorder(DroppedOf(ms).kept);
      Outcome(moved.messages, ix.dups + DemotedOf(ms).notes + DroppedOf(ms).notes + moved.notes)
  }

  // ----- what the index records -----

  function NonEmpty(ids: seq<string>): set<string> { set id | id in ids && id != "" }

  ghost predicate SitesValid(uses: map<string, Site>, ms: seq<Message>) {
    forall id :: id in uses ==>
      var s := uses[id];
      && s.msg < |ms| && s.block < |ms[s.msg].content|
      && IsUse(ms[s.msg].content[s.block]) && UseId(ms[s.msg].content[s.block]) == id
  }

  ghost predicate Counts(results: map<string, nat>, ids: seq<string>) {
    && (forall id :: id in results <==> id in ids)
    && (forall id :: id in results ==> results[id] > 0)
  }

  /** `ix` is a faithful index of `bs`, the blocks read so far from `ms`. */
  ghost predicate Records(ix: Index, bs: seq<Block>, ms: seq<Message>) {
    && ix.uses.Keys == NonEmpty(UseIds(bs)) && Counts(ix.results, ResultIds(bs))
    && SitesValid(ix.uses, ms)
    && (Distinct(UseIds(bs)) ==> ix.dups == [])
  }

  lemma IdsMore(ids: seq<string>, id: string)
    ensures NonEmpty(ids + [id]) == if id == "" then NonEmpty(ids) else NonEmpty(ids) + {id}
    ensures Distinct(ids + [id]) ==> Distinct(ids) && id !in ids
  {
    DistinctConcat(ids, [id]);
    assert id in [id];
  }

  lemma IndexUseRecords(ix: Index, seen: seq<Block>, ms: seq<Message>, site: Site)
    requires site.msg < |ms| && site.block < |ms[site.msg].content|
    requires Records(ix, seen, ms) && IsUse(ms[site.msg].content[site.block])
    ensures var b := ms[site.msg].content[site.block];
      Records(IndexBlock(ix, b, site), seen + [b], ms)
  {
    var b := ms[site.msg].content[site.block];
    IdsAppend(seen, b);
    IdsMore(UseIds(seen), UseId(b));
  }

  lemma IndexOtherRecords(ix: Index, seen: seq<Block>, ms: seq<Message>, b: Block, site: Site)
    requires Records(ix, seen, ms) && !IsUse(b)
    ensures Records(IndexBlock(ix, b, site), seen + [b], ms)
  {
    IdsAppend(seen, b);
    assert Counts(IndexBlock(ix, b, site).results, ResultIds(seen + [b]));
  }

  lemma IdsAppend(bs: seq<Block>, b: Block)
    ensures UseIds(bs + [b]) == if IsUse(b) then UseIds(bs) + [UseId(b)] else UseIds(bs)
    ensures ResultIds(bs + [b]) == if IsResult(b) then ResultIds(bs) + [ResultId(b)] else ResultIds(bs)
    ensures Skeleton(bs + [b]) == if IsResult(b) then Skeleton(bs) else Skeleton(bs) + [b]
  {
    IdsConcat(bs, [b]);
    IdsOne(b);
  }

  lemma IndexNextRecords(ix: Index, seen: seq<Block>, ms: seq<Message>, site: Site)
    requires site.msg < |ms| && site.block < |ms[site.msg].content|
    requires Records(ix, seen + ms[site.msg].content[..site.block], ms)
    ensures var bs := ms[site.msg].content;
      Records(IndexBlock(ix, bs[site.block], site), seen + bs[..site.block + 1], ms)
  {
    var bs, n := ms[site.msg].content, site.block;
    if IsUse(bs[n]) {
      IndexUseRecords(ix, seen + bs[..n], ms, site);
    } else {
      IndexOtherRecords(ix, seen + bs[..n], ms, bs[n], site);
    }
    assert seen + bs[..n + 1] == seen + bs[..n] + [bs[n]];
  }

  lemma {:induction false} IndexBlocksRecords(ix: Index, seen: seq<Block>, ms: seq<Message>, mi: nat, n: nat)
    requires mi < |ms| && n <= |ms[mi].content|
    requires Records(ix, seen, ms)
    ensures Records(IndexBlocks(ix, ms[mi].content, mi, n), seen + ms[mi].content[..n], ms)
  {
    var bs := ms[mi].content;
    if n == 0 {
      ConcatNothing(seen);
    } else {
      IndexBlocksRecords(ix, seen, ms, mi, n - 1);
      IndexNextRecords(IndexBlocks(ix, bs, mi, n - 1), seen, ms, Site(mi, n - 1));
    }
  }

  lemma {:induction false} IndexRecords(ms: seq<Message>, n: nat)
    requires n <= |ms|
    ensures Records(IndexMessages(ms, n), Flat(ms[..n]), ms)
  {
    if n == 0 {
    } else {
      IndexRecords(ms, n - 1);
      assert ms[..n][..n - 1] == ms[..n - 1];
      var bs := ms[n - 1].content;
      assert bs[..|bs|] == bs;
      IndexBlocksRecords(IndexMessages(ms, n - 1), Flat(ms[..n - 1]), ms, n - 1, |bs|);
    }
  }

  lemma IndexToolsRecords(ms: seq<Message>)
    ensures Records(IndexTools(ms), Flat(ms), ms)
  {
    IndexRecords(ms, |ms|);
    assert ms[..|ms|] == ms;
  }

  // ----- what demotion does -----

  lemma {:induction false} DemoteConcat(a: seq<Block>, b: seq<Block>, uses: set<string>, kept: set<string>)
    ensures var back := DemoteBlocks(b, uses, kept);
      var front := DemoteBlocks(a, uses, back.kept);
      DemoteBlocks(a + b, uses, kept) == Demoted(front.out + back.out, front.kept, back.notes + front.notes)
  {
    if b == [] {
      var front := DemoteBlocks(a, uses, kept);
      assert a + b == a && front.out + [] == front.out && [] + front.notes == front.notes;
    } else {
      var last := DemoteBlock(b[|b| - 1], uses, kept);
      assert (a + b)[..|a + b| - 1] == a + b[..|b| - 1];
      DemoteConcat(a, b[..|b| - 1], uses, last.kept);
      var mid := DemoteBlocks(b[..|b| - 1], uses, last.kept);
      var front := DemoteBlocks(a, uses, mid.kept);
      assert front.out + mid.out + [last.out] == front.out + (mid.out + [last.out]);
      assert last.notes + (mid.notes + front.notes) == last.notes + mid.notes + front.notes;
    }
  }

  /** Demoting message by message is demoting the flattened history. */
  lemma {:induction false} DemoteFlat(ms: seq<Message>, uses: set<string>, kept: set<string>)
    ensures var byMessage, flat := DemoteMessages(ms, uses, kept), DemoteBlocks(Flat(ms), uses, kept);
      && Flat(byMessage.out) == flat.out && byMessage.kept == flat.kept && byMessage.notes == flat.notes
      && |byMessage.out| == |ms|
  {
    if ms == [] {
    } else {
      var m := ms[|ms| - 1];
      var last := DemoteBlocks(m.content, uses, kept);
      DemoteFlat(ms[..|ms| - 1], uses, last.kept);
      DemoteConcat(Flat(ms[..|ms| - 1]), m.content, uses, kept);
      var front := DemoteMessages(ms[..|ms| - 1], uses, last.kept);
      assert (front.out + [m.(content := last.out)])[..|front.out|] == front.out;
    }
  }

  /** Result `i` is the one that counts: it answers a call and no later copy follows. */
  predicate Survives(bs: seq<Block>, i: nat, uses: set<string>, kept: set<string>)
    requires i < |bs|
  {
    && IsResult(bs[i]) && ResultId(bs[i]) in uses && ResultId(bs[i]) !in kept
    && forall j :: i < j < |bs| && IsResult(bs[j]) ==> ResultId(bs[j]) != ResultId(bs[i])
  }

  /** Demotion happens in place, block by block: the last copy of each answered result is
      kept as it was, every other result becomes text, and nothing else is touched. */
  lemma {:induction false} DemoteInPlace(bs: seq<Block>, uses: set<string>, kept: set<string>)
    ensures var d := DemoteBlocks(bs, uses, kept);
      && |d.out| == |bs|
      && forall i :: 0 <= i < |bs| ==>
        d.out[i] == if IsResult(bs[i]) && !Survives(bs, i, uses, kept) then DemoteToText(bs[i]) else bs[i]
  {
    if bs == [] {
    } else {
      var n := |bs| - 1;
      var last := DemoteBlock(bs[n], uses, kept);
      DemoteInPlace(bs[..n], uses, last.kept);
      forall i | 0 <= i < n && IsResult(bs[i])
        ensures Survives(bs, i, uses, kept) <==> Survives(bs[..n], i, uses, last.kept)
      {
        if Survives(bs[..n], i, uses, last.kept) {
          forall j | i < j < |bs| && IsResult(bs[j]) ensures ResultId(bs[j]) != ResultId(bs[i]) {
            if j < n { assert bs[..n][j] == bs[j]; }
          }
        }
      }
    }
  }

  /** `ids` names once each of `all` that answers a call and is not yet kept. */
  ghost predicate AnsweredOnce(ids: seq<string>, all: seq<string>, uses: set<string>, kept: set<string>) {
    Distinct(ids) && forall id :: id in ids <==> id in all && id in uses && id !in kept
  }

  lemma AnsweredOnceMore(ids: seq<string>, all: seq<string>, uses: set<string>, kept: set<string>, id: string)
    ensures id in uses && id !in kept && AnsweredOnce(ids, all, uses, kept + {id}) ==>
      AnsweredOnce(ids + [id], all + [id], uses, kept)
    ensures !(id in uses && id !in kept) && AnsweredOnce(ids, all, uses, kept) ==>
      AnsweredOnce(ids, all + [id], uses, kept)
  {
    if id in uses && id !in kept && AnsweredOnce(ids, all, uses, kept + {id}) {
      assert id !in ids;
      DistinctConcat(ids, [id]);
    }
  }

  /** The ids left after demotion: distinct, all answering a call, and every answered id
      is still there. */
  lemma {:induction false} DemoteIds(bs: seq<Block>, uses: set<string>, kept: set<string>)
    ensures AnsweredOnce(ResultIds(DemoteBlocks(bs, uses, kept).out), ResultIds(bs), uses, kept)
    ensures UseIds(DemoteBlocks(bs, uses, kept).out) == UseIds(bs)
  {
    if bs == [] {
    } else {
      var n := |bs| - 1;
      var last := DemoteBlock(bs[n], uses, kept);
      var front := DemoteBlocks(bs[..n], uses, last.kept);
      DemoteIds(bs[..n], uses, last.kept);
      IdsAppend(front.out, last.out);
      FrontLast(bs);
      IdsAppend(bs[..n], bs[n]);
      if IsResult(bs[n]) {
        AnsweredOnceMore(ResultIds(front.out), ResultIds(bs[..n]), uses, kept, ResultId(bs[n]));
      }
    }
  }

  /** Each of `ids` answers a call and is not yet kept. */
  ghost predicate Unkept(ids: seq<string>, uses: set<string>, kept: set<string>) {
    forall id :: id in ids ==> id in uses && id !in kept
  }

  lemma {:induction false} DemoteNothing(bs: seq<Block>, uses: set<string>, kept: set<string>)
    requires Distinct(ResultIds(bs)) && Unkept(ResultIds(bs), uses, kept)
    ensures DemoteBlocks(bs, uses, kept).out == bs && DemoteBlocks(bs, uses, kept).notes == []
  {
    if bs == [] {
    } else {
      var n := |bs| - 1;
      FrontLast(bs);
      IdsConcat(bs[..n], [bs[n]]);
      IdsOne(bs[n]);
      DistinctConcat(ResultIds(bs[..n]), ResultOf(bs[n]));
      DemoteNothing(bs[..n], uses, DemoteBlock(bs[n], uses, kept).kept);
    }
  }

  lemma {:induction false} DemoteMessagesNothing(ms: seq<Message>, uses: set<string>, kept: set<string>)
    requires Distinct(ResultIds(Flat(ms))) && Unkept(ResultIds(Flat(ms)), uses, kept)
    ensures DemoteMessages(ms, uses, kept).out == ms && DemoteMessages(ms, uses, kept).notes == []
  {
    if ms == [] {
    } else {
      var front, m := ms[..|ms| - 1], ms[|ms| - 1];
      IdsConcat(Flat(front), m.content);
      DistinctConcat(ResultIds(Flat(front)), ResultIds(m.content));
      assert Unkept(ResultIds(m.content), uses, kept);
      DemoteNothing(m.content, uses, kept);
      DemoteKept(m.content, uses, kept);
      assert Unkept(ResultIds(Flat(front)), uses, DemoteBlocks(m.content, uses, kept).kept);
      DemoteMessagesNothing(front, uses, DemoteBlocks(m.content, uses, kept).kept);
      assert m.(content := m.content) == m;
      FrontLast(ms);
    }
  }

  lemma {:induction false} DemoteKept(bs: seq<Block>, uses: set<string>, kept: set<string>)
    ensures forall id :: id in DemoteBlocks(bs, uses, kept).kept ==> id in kept || id in ResultIds(bs)
  {
    if bs == [] {
    } else {
      var n := |bs| - 1;
      DemoteKept(bs[..n], uses, DemoteBlock(bs[n], uses, kept).kept);
      FrontLast(bs);
      IdsConcat(bs[..n], [bs[n]]);
      IdsOne(bs[n]);
    }
  }

  // ----- what dropping does -----

  lemma {:induction false} DropFlat(ms: seq<Message>, results: map<string, nat>)
    ensures Flat(DropMessages(ms, results).kept) == Select(Flat(ms), AnsweredOf(results))
  {
    if ms == [] {
    } else {
      var front, m := ms[..|ms| - 1], ms[|ms| - 1];
      DropFlat(front, results);
      SelectConcat(Flat(front), m.content, AnsweredOf(results));
      var d := DropMessages(front, results);
      var content := Select(m.content, AnsweredOf(results));
      assert (d.kept + [m.(content := content)])[..|d.kept|] == d.kept;
    }
  }

  function AnsweredUseOf(answers: seq<string>): Block -> seq<string> {
    b => if IsUse(b) && UseId(b) in answers then [UseId(b)] else []
  }

  /** The ids of the calls that some result answers, in call order. */
  function AnsweredIds(ms: seq<Message>): seq<string> {
    Select(Flat(ms), AnsweredUseOf(ResultIds(Flat(ms))))
  }

  lemma DropIds(bs: seq<Block>, results: map<string, nat>, answers: seq<string>)
    requires Counts(results, answers)
    ensures UseIds(Select(bs, AnsweredOf(results))) == Select(bs, AnsweredUseOf(answers))
    ensures ResultIds(Select(bs, AnsweredOf(results))) == ResultIds(bs)
  {
    forall b | true
      ensures Select(AnsweredOf(results)(b), UseOf) == AnsweredUseOf(answers)(b)
      ensures Select(AnsweredOf(results)(b), ResultOf) == ResultOf(b)
    {
      SelectOne(b, UseOf);
      SelectOne(b, ResultOf);
    }
    SelectFuse(bs, AnsweredOf(results), UseOf, AnsweredUseOf(answers));
    SelectFuse(bs, AnsweredOf(results), ResultOf, ResultOf);
  }

  lemma CountedIsAnswered(b: Block, results: map<string, nat>)
    requires AllCounted(UseOf(b), results)
    ensures !Unanswered(b, results)
  {
    if IsUse(b) { assert UseId(b) in UseOf(b); }
  }

  lemma {:induction false} KeepAll(bs: seq<Block>, results: map<string, nat>)
    requires AllCounted(UseIds(bs), results)
    ensures Select(bs, AnsweredOf(results)) == bs && Select(bs, DropNotesOf(results)) == []
  {
    if bs == [] {
    } else {
      var front, b := bs[..|bs| - 1], bs[|bs| - 1];
      assert UseIds(bs) == UseIds(front) + UseOf(b);
      CountedConcat(UseIds(front), UseOf(b), results);
      CountedIsAnswered(b, results);
      KeepAll(front, results);
      FrontLast(bs);
    }
  }

  ghost predicate AllCounted(ids: seq<string>, results: map<string, nat>) {
    forall id :: id in ids ==> CountIn(results, id) > 0
  }

  lemma CountedConcat(a: seq<string>, b: seq<string>, results: map<string, nat>)
    requires AllCounted(a + b, results)
    ensures AllCounted(a, results) && AllCounted(b, results)
  {
    forall id | id in a || id in b ensures CountIn(results, id) > 0 { assert id in a + b; }
  }

  lemma {:induction false} DropNothing(ms: seq<Message>, results: map<string, nat>)
    requires AllCounted(UseIds(Flat(ms)), results)
    ensures DropMessages(ms, results) == Dropped(ms, [])
  {
    if ms == [] {
    } else {
      var front, m := ms[..|ms| - 1], ms[|ms| - 1];
      IdsConcat(Flat(front), m.content);
      CountedConcat(UseIds(Flat(front)), UseIds(m.content), results);
      DropNothing(front, results);
      KeepAll(m.content, results);
      assert m.(content := m.content) == m;
      FrontLast(ms);
    }
  }

  // ----- what reordering does -----

  function ResultBlockOf(b: Block): seq<Block> { if IsResult(b) then [b] else [] }

  /** The tool results of a history, in order. */
  function Results(bs: seq<Block>): seq<Block> { Select(bs, ResultBlockOf) }

  lemma {:induction false} StripEach(ms: seq<Message>, uses: set<string>)
    ensures forall i :: 0 <= i < |ms| ==>
      Strip(ms, uses)[i] == ms[i].(content := Select(ms[i].content, UnpulledOf(uses)))
  {
    if ms == [] {
    } else {
      StripEach(ms[..|ms| - 1], uses);
    }
  }

  lemma StripContent(bs: seq<Block>, uses: set<string>)
    ensures var out := Select(bs, UnpulledOf(uses));
      && Skeleton(out) == Skeleton(bs)
      && UseIds(out) == UseIds(bs)
      && ((forall id :: id in ResultIds(bs) ==> id in uses) ==> ResultIds(out) == [])
  {
    var f := UnpulledOf(uses);
    forall b | true
      ensures Select(f(b), NonResultOf) == NonResultOf(b) && Select(f(b), UseOf) == UseOf(b)
    {
      SelectOne(b, NonResultOf);
      SelectOne(b, UseOf);
    }
    SelectFuse(bs, f, NonResultOf, NonResultOf);
    SelectFuse(bs, f, UseOf, UseOf);
    if forall id :: id in ResultIds(bs) ==> id in uses {
      forall i | 0 <= i < |bs| ensures f(bs[i]) == NonResultOf(bs[i]) {
        if IsResult(bs[i]) {
          assert ResultId(bs[i]) in ResultOf(bs[i]);
          SelectMember(bs, ResultOf, ResultId(bs[i]));
        }
      }
      SelectSame(bs, f, NonResultOf);
      SkeletonHasNoResults(bs);
    }
  }

  lemma {:induction false} SkeletonHasNoResults(bs: seq<Block>)
    ensures ResultIds(Skeleton(bs)) == [] && Skeleton(Skeleton(bs)) == Skeleton(bs)
  {
    if bs == [] {
    } else {
      var front, b := bs[..|bs| - 1], bs[|bs| - 1];
      SkeletonHasNoResults(front);
      if IsResult(b) { assert Skeleton(bs) == Skeleton(front); } else { IdsAppend(Skeleton(front), b); }
    }
  }

  lemma {:induction false} PulledRecords(bs: seq<Block>, uses: set<string>)
    ensures var pulled := Pulled(bs, uses);
      && (forall id :: id in pulled <==> id in ResultIds(bs) && id in uses)
      && (forall id :: id in pulled ==> pulled[id] in bs && IsResult(pulled[id]) && ResultId(pulled[id]) == id)
  {
    if bs == [] {
    } else {
      var front, b := bs[..|bs| - 1], bs[|bs| - 1];
      PulledRecords(front, uses);
      FrontLast(bs);
      IdsAppend(front, b);
    }
  }

  lemma PulledIsTheBlock(bs: seq<Block>, uses: set<string>, i: nat)
    requires i < |bs| && Distinct(ResultIds(bs)) && Pullable(bs[i], uses)
    ensures ResultId(bs[i]) in Pulled(bs, uses) && Pulled(bs, uses)[ResultId(bs[i])] == bs[i]
  {
    var id := ResultId(bs[i]);
    assert id in ResultOf(bs[i]);
    SelectMember(bs, ResultOf, id);
    PulledRecords(bs, uses);
    var b := Pulled(bs, uses)[id];
    var j :| 0 <= j < |bs| && bs[j] == b;
    if i < j { SameIdSamePlace(bs, i, j); } else if j < i { SameIdSamePlace(bs, j, i); }
  }

  lemma SameIdSamePlace(bs: seq<Block>, i: nat, j: nat)
    requires i < j < |bs| && Distinct(ResultIds(bs))
    requires IsResult(bs[i]) && IsResult(bs[j])
    ensures ResultId(bs[i]) != ResultId(bs[j])
  {
    var a, b := bs[..j], bs[j..];
    assert bs == a + b;
    IdsConcat(a, b);
    DistinctConcat(ResultIds(a), ResultIds(b));
    assert a[i] == bs[i] && b[0] == bs[j];
    assert ResultId(a[i]) in ResultOf(a[i]) && ResultId(b[0]) in ResultOf(b[0]);
    SelectMember(a, ResultOf, ResultId(a[i]));
    SelectMember(b, ResultOf, ResultId(b[0]));
  }

  lemma {:induction false} CallOrderRecords(bs: seq<Block>, mi: nat, uses: map<string, Site>, n: nat)
    requires n <= |bs|
    ensures var ids := CallOrder(bs, mi, uses, n);
      && Distinct(ids)
      && (forall id :: id in ids <==>
            id in uses && uses[id].msg == mi && uses[id].block < n
            && IsUse(bs[uses[id].block]) && UseId(bs[uses[id].block]) == id)
  {
    if n > 0 { CallOrderRecords(bs, mi, uses, n - 1); }
  }

  lemma {:induction false} CallOrderIsUseIds(bs: seq<Block>, mi: nat, uses: map<string, Site>, n: nat)
    requires n <= |bs|
    requires forall k :: 0 <= k < n && IsUse(bs[k]) ==> UseId(bs[k]) in uses && uses[UseId(bs[k])] == Site(mi, k)
    ensures CallOrder(bs, mi, uses, n) == UseIds(bs[..n])
  {
    if n == 0 {
    } else {
      CallOrderIsUseIds(bs, mi, uses, n - 1);
      assert bs[..n] == bs[..n - 1] + [bs[n - 1]];
      IdsAppend(bs[..n - 1], bs[n - 1]);
    }
  }

  /** The ids of all indexed calls, message by message. */
  function AllCalls(ms: seq<Message>, uses: map<string, Site>, n: nat): seq<string>
    requires n <= |ms|
  {
    if n == 0 then []
    else AllCalls(ms, uses, n - 1) + CallOrder(ms[n - 1].content, n - 1, uses, |ms[n - 1].content|)
  }

  lemma {:induction false} AllCallsRecords(ms: seq<Message>, uses: map<string, Site>, n: nat)
    requires n <= |ms| && SitesValid(uses, ms)
    ensures Distinct(AllCalls(ms, uses, n))
    ensures forall id :: id in AllCalls(ms, uses, n) <==> id in uses && uses[id].msg < n
  {
    if n == 0 {
    } else {
      AllCallsRecords(ms, uses, n - 1);
      CallOrderRecords(ms[n - 1].content, n - 1, uses, |ms[n - 1].content|);
      DistinctConcat(AllCalls(ms, uses, n - 1),
                     CallOrder(ms[n - 1].content, n - 1, uses, |ms[n - 1].content|));
    }
  }

  /** Every id of the group was pulled out, under its own name. */
  ghost predicate Grouped(ids: seq<string>, pulled: map<string, Block>) {
    forall id :: id in ids ==> id in pulled && IsResult(pulled[id]) && ResultId(pulled[id]) == id
  }

  /** Nothing but the results `ids`, in that order. */
  ghost predicate ResultsOf(g: seq<Block>, ids: seq<string>) {
    ResultIds(g) == ids && UseIds(g) == [] && Skeleton(g) == [] && Results(g) == g
  }

  lemma ResultAppended(g: seq<Block>, ids: seq<string>, b: Block)
    requires ResultsOf(g, ids) && IsResult(b)
    ensures ResultsOf(g + [b], ids + [ResultId(b)])
  {
    IdsAppend(g, b);
    SelectConcat(g, [b], ResultBlockOf);
    SelectOne(b, ResultBlockOf);
  }

  lemma {:induction false} GroupRecords(ids: seq<string>, pulled: map<string, Block>)
    requires Grouped(ids, pulled)
    ensures var g := Group(ids, pulled);
      && |g| == |ids|
      && (forall k :: 0 <= k < |ids| ==> g[k] == pulled[ids[k]])
      && ResultsOf(g, ids)
  {
    if ids == [] {
    } else {
      var front, id := ids[..|ids| - 1], ids[|ids| - 1];
      FrontLast(ids);
      GroupRecords(front, pulled);
      ResultAppended(Group(front, pulled), front, pulled[id]);
    }
  }

  lemma {:induction false} GroupConcat(a: seq<string>, b: seq<string>, pulled: map<string, Block>)
    ensures Group(a + b, pulled) == Group(a, pulled) + Group(b, pulled)
  {
    if b == [] {
      assert a + b == a;
    } else {
      assert (a + b)[..|a + b| - 1] == a + b[..|b| - 1];
      GroupConcat(a, b[..|b| - 1], pulled);
    }
  }

  function FlatGroups(groups: seq<seq<Block>>): seq<Block> {
    if groups == [] then [] else groups[0] + FlatGroups(groups[1..])
  }

  lemma {:induction false} FlatGroupsIsGroup(
      ms: seq<Message>, uses: map<string, Site>, pulled: map<string, Block>, k: nat)
    requires k <= |ms|
    ensures Group(AllCalls(ms, uses, |ms|), pulled)
         == Group(AllCalls(ms, uses, k), pulled) + FlatGroups(Groups(ms, uses, pulled)[k..])
    decreases |ms| - k
  {
    var gs := Groups(ms, uses, pulled);
    if k < |ms| {
      FlatGroupsIsGroup(ms, uses, pulled, k + 1);
      GroupConcat(AllCalls(ms, uses, k), CallOrder(ms[k].content, k, uses, |ms[k].content|), pulled);
      assert gs[k..][1..] == gs[k + 1..];
    }
  }

  /** Laying out moves whole groups in and changes nothing else: what is not a result keeps
      its order, and the results read off are the groups, in order. */
  lemma {:induction false} LayoutConserves(ms: seq<Message>, groups: seq<seq<Block>>, carry: seq<Block>)
    requires |groups| == |ms|
    requires forall i :: 0 <= i < |ms| ==> ResultIds(ms[i].content) == []
    requires forall i :: 0 <= i < |groups| ==> Results(groups[i]) == groups[i] && Skeleton(groups[i]) == []
    requires Results(carry) == carry && Skeleton(carry) == []
    ensures var out := Flat(Layout(ms, groups, carry));
      && Skeleton(out) == Skeleton(Flat(ms))
      && Results(out) == carry + FlatGroups(groups)
  {
    var out := Layout(ms, groups, carry);
    if ms == [] {
      if carry != [] { FlatCons(out); }
      assert Flat(out) == carry && carry + FlatGroups(groups) == carry;
    } else {
      var content, rest := ms[0].content, Flat(Layout(ms[1..], groups[1..], groups[0]));
      LayoutConserves(ms[1..], groups[1..], groups[0]);
      LayoutHead(ms, groups, carry);
      FlatCons(ms);
      OnlyNonResults(content);
      Splice(carry, content, rest);
      IdsConcat(content, Flat(ms[1..]));
    }
  }

  lemma Splice(carry: seq<Block>, content: seq<Block>, rest: seq<Block>)
    requires Results(carry) == carry && Skeleton(carry) == [] && Results(content) == []
    ensures Skeleton(carry + (content + rest)) == Skeleton(content) + Skeleton(rest)
    ensures Results(carry + (content + rest)) == carry + Results(rest)
  {
    IdsConcat(content, rest);
    IdsConcat(carry, content + rest);
    SelectConcat(content, rest, ResultBlockOf);
    SelectConcat(carry, content + rest, ResultBlockOf);
  }

  lemma LayoutHead(ms: seq<Message>, groups: seq<seq<Block>>, carry: seq<Block>)
    requires |groups| == |ms| && ms != []
    ensures Flat(Layout(ms, groups, carry))
         == carry + (ms[0].content + Flat(Layout(ms[1..], groups[1..], groups[0])))
  {
    var host, rest := Host(carry, ms[0]), Layout(ms[1..], groups[1..], groups[0]);
    assert Layout(ms, groups, carry) == host + rest;
    FlatConcat(host, rest);
    FlatHost(carry, ms[0]);
    Associate(carry, ms[0].content, Flat(rest));
  }

  lemma FlatHost(carry: seq<Block>, m: Message)
    ensures Flat(Host(carry, m)) == carry + m.content
  {
    var host := Host(carry, m);
    FlatCons(host);
    if |host| == 2 {
      FlatCons(host[1..]);
      assert host[1..] == [m] && [m][1..] == [];
    } else {
      assert host[1..] == [];
    }
  }

  lemma {:induction false} OnlyNonResults(bs: seq<Block>)
    requires ResultIds(bs) == []
    ensures Results(bs) == []
  {
    if bs == [] {
    } else {
      OnlyNonResults(bs[..|bs| - 1]);
    }
  }

  // ----- the layout every upstream accepts -----

  /** The message opens with the results of the calls `owed`, in call order, and holds no
      other result. */
  predicate LeadsWith(m: Message, owed: seq<string>) {
    && (owed != [] ==> m.role == User)
    && |owed| <= |m.content|
    && (forall k :: 0 <= k < |owed| ==> IsResult(m.content[k]) && ResultId(m.content[k]) == owed[k])
    && (forall k :: |owed| <= k < |m.content| ==> !IsResult(m.content[k]))
  }

  predicate Paired(ms: seq<Message>, owed: seq<string>) {
    if ms == [] then owed == []
    else LeadsWith(ms[0], owed) && Paired(ms[1..], UseIds(ms[0].content))
  }

  /** What `Paired` means message by message: message `i` leads with the results of message
      `i - 1`, holds no other result, and the last message owes none. */
  lemma {:induction false} PairedMeans(ms: seq<Message>, owed: seq<string>)
    ensures Paired(ms, owed) <==>
      && (ms == [] ==> owed == [])
      && (ms != [] ==> LeadsWith(ms[0], owed) && UseIds(ms[|ms| - 1].content) == [])
      && forall i :: 0 < i < |ms| ==> LeadsWith(ms[i], UseIds(ms[i - 1].content))
  {
    if ms == [] {
    } else {
      PairedMeans(ms[1..], UseIds(ms[0].content));
      if |ms| > 1 {
        assert ms[1..][0] == ms[1] && ms[1..][|ms| - 2] == ms[|ms| - 1];
        if Paired(ms, owed) {
          forall i | 0 < i < |ms| ensures LeadsWith(ms[i], UseIds(ms[i - 1].content)) {
            if i > 1 { assert ms[1..][i - 1] == ms[i] && ms[1..][i - 2] == ms[i - 1]; }
          }
        } else if forall i :: 0 < i < |ms| ==> LeadsWith(ms[i], UseIds(ms[i - 1].content)) {
          forall i | 0 < i < |ms[1..]| ensures LeadsWith(ms[1..][i], UseIds(ms[1..][i - 1].content)) {
            assert LeadsWith(ms[i + 1], UseIds(ms[i].content));
          }
        }
      }
    }
  }

  lemma LeadIds(m: Message, owed: seq<string>)
    requires LeadsWith(m, owed)
    ensures ResultIds(m.content) == owed
  {
    var lead, tail := m.content[..|owed|], m.content[|owed|..];
    assert m.content == lead + tail;
    IdsConcat(lead, tail);
    NoResults(tail);
    LeadIdsOnly(lead, owed);
  }

  lemma {:induction false} LeadIdsOnly(lead: seq<Block>, owed: seq<string>)
    requires |lead| == |owed|
    requires forall k :: 0 <= k < |owed| ==> IsResult(lead[k]) && ResultId(lead[k]) == owed[k]
    ensures ResultIds(lead) == owed
  {
    if lead == [] {
    } else {
      LeadIdsOnly(lead[..|lead| - 1], owed[..|owed| - 1]);
    }
  }

  /** In a paired history the results, read in order, are exactly the calls read in order. */
  lemma {:induction false} PairedIds(ms: seq<Message>, owed: seq<string>)
    requires Paired(ms, owed)
    ensures ResultIds(Flat(ms)) == owed + UseIds(Flat(ms))
  {
    if ms == [] {
    } else {
      LeadIds(ms[0], owed);
      PairedIds(ms[1..], UseIds(ms[0].content));
      FlatCons(ms);
      IdsConcat(ms[0].content, Flat(ms[1..]));
    }
  }

  /** A message without results, next to the results of its own calls. */
  ghost predicate ReadyAt(m: Message, group: seq<Block>, pulled: map<string, Block>) {
    var calls := UseIds(m.content);
    ResultIds(m.content) == [] && Grouped(calls, pulled) && group == Group(calls, pulled)
  }

  ghost predicate Ready(ms: seq<Message>, groups: seq<seq<Block>>, pulled: map<string, Block>) {
    |groups| == |ms| && forall i :: 0 <= i < |ms| ==> ReadyAt(ms[i], groups[i], pulled)
  }

  lemma {:induction false} LayoutPaired(
      ms: seq<Message>, groups: seq<seq<Block>>, carry: seq<Block>,
      owed: seq<string>, pulled: map<string, Block>)
    requires Ready(ms, groups, pulled) && Carries(carry, owed)
    ensures Paired(Layout(ms, groups, carry), owed)
  {
    if ms == [] {
      if carry != [] { FreshLeads(carry, owed, []); }
    } else {
      var calls := UseIds(ms[0].content);
      assert ReadyAt(ms[0], groups[0], pulled);
      GroupRecords(calls, pulled);
      LayoutPaired(ms[1..], groups[1..], groups[0], calls, pulled);
      HostPaired(carry, owed, ms[0], Layout(ms[1..], groups[1..], groups[0]));
    }
  }

  lemma HostPaired(carry: seq<Block>, owed: seq<string>, m: Message, rest: seq<Message>)
    requires Carries(carry, owed) && ResultIds(m.content) == [] && Paired(rest, UseIds(m.content))
    ensures Paired(Host(carry, m) + rest, owed)
  {
    if carry != [] && m.role == User {
      CarriedLeads(m, carry, owed, rest);
    } else {
      PlainLeads(m, rest);
      if carry != [] {
        FreshLeads(carry, owed, [m] + rest);
        Associate([Message(User, carry, "", "")], [m], rest);
        assert Host(carry, m) == [Message(User, carry, "", "")] + [m];
      }
    }
  }

  /** `carry` holds exactly the results `owed`. */
  ghost predicate Carries(carry: seq<Block>, owed: seq<string>) {
    && |carry| == |owed| && UseIds(carry) == []
    && forall k :: 0 <= k < |owed| ==> IsResult(carry[k]) && ResultId(carry[k]) == owed[k]
  }

  lemma CarriedLeads(m: Message, carry: seq<Block>, owed: seq<string>, rest: seq<Message>)
    requires Carries(carry, owed) && ResultIds(m.content) == [] && (owed != [] ==> m.role == User)
    requires Paired(rest, UseIds(m.content))
    ensures Paired([m.(content := carry + m.content)] + rest, owed)
  {
    NoResults(m.content);
    IdsConcat(carry, m.content);
    var out := [m.(content := carry + m.content)] + rest;
    assert out[1..] == rest;
  }

  lemma PlainLeads(m: Message, rest: seq<Message>)
    requires ResultIds(m.content) == [] && Paired(rest, UseIds(m.content))
    ensures Paired([m] + rest, [])
  {
    CarriedLeads(m, [], [], rest);
    ConcatNothing(m.content);
    assert m.(content := m.content) == m;
  }

  lemma FreshLeads(carry: seq<Block>, owed: seq<string>, rest: seq<Message>)
    requires Carries(carry, owed) && Paired(rest, [])
    ensures Paired([Message(User, carry, "", "")] + rest, owed)
  {
    var out := [Message(User, carry, "", "")] + rest;
    assert out[1..] == rest;
  }

  lemma FlatSplit(ms: seq<Message>, k: nat)
    requires k <= |ms|
    ensures Flat(ms) == Flat(ms[..k]) + Flat(ms[k..])
  {
    assert ms == ms[..k] + ms[k..];
    FlatConcat(ms[..k], ms[k..]);
  }

  lemma UseIsListed(ms: seq<Message>, s: Site)
    requires s.msg < |ms| && s.block < |ms[s.msg].content| && IsUse(ms[s.msg].content[s.block])
    ensures UseId(ms[s.msg].content[s.block]) in UseIds(ms[s.msg].content)
    ensures UseId(ms[s.msg].content[s.block]) in UseIds(Flat(ms))
  {
    var bs := ms[s.msg].content;
    assert UseId(bs[s.block]) in UseOf(bs[s.block]);
    SelectMember(bs, UseOf, UseId(bs[s.block]));
    FlatSplit(ms, s.msg);
    FlatCons(ms[s.msg..]);
    IdsConcat(bs, Flat(ms[s.msg..][1..]));
    IdsConcat(Flat(ms[..s.msg]), Flat(ms[s.msg..]));
  }

  /** With distinct ids, a call can be in one place only. */
  lemma OneSite(ms: seq<Message>, s: Site, t: Site)
    requires Distinct(UseIds(Flat(ms)))
    requires s.msg < |ms| && s.block < |ms[s.msg].content| && IsUse(ms[s.msg].content[s.block])
    requires t.msg < |ms| && t.block < |ms[t.msg].content| && IsUse(ms[t.msg].content[t.block])
    requires s.msg < t.msg || (s.msg == t.msg && s.block < t.block)
    ensures UseId(ms[s.msg].content[s.block]) != UseId(ms[t.msg].content[t.block])
  {
    var back, rest := ms[t.msg..], ms[t.msg..][1..];
    FlatSplit(ms, t.msg);
    IdsConcat(Flat(ms[..t.msg]), Flat(back));
    DistinctConcat(UseIds(Flat(ms[..t.msg])), UseIds(Flat(back)));
    FlatCons(back);
    var bs := ms[t.msg].content;
    IdsConcat(bs, Flat(rest));
    DistinctConcat(UseIds(bs), UseIds(Flat(rest)));
    if s.msg < t.msg {
      UseIsListed(ms[..t.msg], s);
      UseIsListed(back, Site(0, t.block));
    } else {
      var a, b := bs[..t.block], bs[t.block..];
      assert bs == a + b;
      IdsConcat(a, b);
      DistinctConcat(UseIds(a), UseIds(b));
      assert a[s.block] == bs[s.block] && b[0] == bs[t.block];
      assert UseId(a[s.block]) in UseOf(a[s.block]) && UseId(b[0]) in UseOf(b[0]);
      SelectMember(a, UseOf, UseId(a[s.block]));
      SelectMember(b, UseOf, UseId(b[0]));
    }
  }

  lemma IndexedWhereWritten(ms: seq<Message>, here: Site)
    requires Distinct(UseIds(Flat(ms))) && "" !in UseIds(Flat(ms))
    requires here.msg < |ms| && here.block < |ms[here.msg].content| && IsUse(ms[here.msg].content[here.block])
    ensures var id, uses := UseId(ms[here.msg].content[here.block]), IndexTools(ms).uses;
      id in uses && uses[id] == here
  {
    var id, uses := UseId(ms[here.msg].content[here.block]), IndexTools(ms).uses;
    IndexToolsRecords(ms);
    UseIsListed(ms, here);
    assert id in NonEmpty(UseIds(Flat(ms)));
    var s := uses[id];
    if s.msg < here.msg || (s.msg == here.msg && s.block < here.block) {
      OneSite(ms, s, here);
    } else if here.msg < s.msg || here.block < s.block {
      OneSite(ms, here, s);
    }
  }

  /** With distinct non-empty ids, the calls of a message are grouped in the order written. */
  lemma CallOrderWhenDistinct(ms: seq<Message>, mi: nat)
    requires mi < |ms| && Distinct(UseIds(Flat(ms))) && "" !in UseIds(Flat(ms))
    ensures var bs := ms[mi].content;
      CallOrder(bs, mi, IndexTools(ms).uses, |bs|) == UseIds(bs)
  {
    var bs, uses := ms[mi].content, IndexTools(ms).uses;
    forall k | 0 <= k < |bs| && IsUse(bs[k])
      ensures UseId(bs[k]) in uses && uses[UseId(bs[k])] == Site(mi, k)
    {
      IndexedWhereWritten(ms, Site(mi, k));
    }
    CallOrderIsUseIds(bs, mi, uses, |bs|);
    assert bs[..|bs|] == bs;
  }

  lemma {:induction false} FlatMember(ms: seq<Message>, i: nat)
    requires i < |ms|
    ensures forall id :: id in ResultIds(ms[i].content) ==> id in ResultIds(Flat(ms))
    ensures forall id :: id in UseIds(ms[i].content) ==> id in UseIds(Flat(ms))
  {
    FlatSplit(ms, i);
    IdsConcat(Flat(ms[..i]), Flat(ms[i..]));
    FlatCons(ms[i..]);
    IdsConcat(ms[i].content, Flat(ms[i..][1..]));
  }

  lemma {:induction false} StripFlat(ms: seq<Message>, uses: set<string>)
    ensures Skeleton(Flat(Strip(ms, uses))) == Skeleton(Flat(ms))
  {
    if ms == [] {
    } else {
      var front, m := ms[..|ms| - 1], ms[|ms| - 1];
      StripFlat(front, uses);
      StripContent(m.content, uses);
      var content := Select(m.content, UnpulledOf(uses));
      IdsConcat(Flat(front), m.content);
      IdsConcat(Flat(Strip(front, uses)), content);
      assert Strip(ms, uses)[..|front|] == Strip(front, uses);
    }
  }

  /** Every result answers some call with a non-empty id: the state reordering starts from. */
  predicate AllAnswer(ms: seq<Message>) {
    forall id :: id in ResultIds(Flat(ms)) ==> id in UseIds(Flat(ms)) && id != ""
  }

  lemma StrippedHasNoResults(ms: seq<Message>)
    requires AllAnswer(ms)
    ensures var uses := IndexTools(ms).uses.Keys;
      forall i :: 0 <= i < |ms| ==>
        ResultIds(Strip(ms, uses)[i].content) == [] && UseIds(Strip(ms, uses)[i].content) == UseIds(ms[i].content)
  {
    var uses := IndexTools(ms).uses.Keys;
    IndexToolsRecords(ms);
    StripEach(ms, uses);
    forall i | 0 <= i < |ms|
      ensures ResultIds(Strip(ms, uses)[i].content) == []
      ensures UseIds(Strip(ms, uses)[i].content) == UseIds(ms[i].content)
    {
      FlatMember(ms, i);
      StripContent(ms[i].content, uses);
    }
  }

  lemma GroupsRecorded(ms: seq<Message>, uses: map<string, Site>, pulled: map<string, Block>)
    requires SitesValid(uses, ms)
    requires forall id :: id in uses ==> id in pulled && IsResult(pulled[id]) && ResultId(pulled[id]) == id
    ensures Grouped(AllCalls(ms, uses, |ms|), pulled)
    ensures forall i :: 0 <= i < |ms| ==>
      var g := Groups(ms, uses, pulled)[i]; Results(g) == g && Skeleton(g) == []
  {
    AllCallsRecords(ms, uses, |ms|);
    forall i | 0 <= i < |ms|
      ensures var g := Groups(ms, uses, pulled)[i]; Results(g) == g && Skeleton(g) == []
    {
      var ids := CallOrder(ms[i].content, i, uses, |ms[i].content|);
      CallOrderRecords(ms[i].content, i, uses, |ms[i].content|);
      GroupRecords(ids, pulled);
    }
  }

  lemma {:induction false} SkeletonUses(a: seq<Block>)
    ensures UseIds(Skeleton(a)) == UseIds(a)
  {
    forall b | true ensures Select(NonResultOf(b), UseOf) == UseOf(b) { SelectOne(b, UseOf); }
    SelectFuse(a, NonResultOf, UseOf, UseOf);
  }

  lemma {:induction false} ResultIdsOfResults(a: seq<Block>)
    ensures ResultIds(Results(a)) == ResultIds(a)
  {
    forall b | true ensures Select(ResultBlockOf(b), ResultOf) == ResultOf(b) { SelectOne(b, ResultOf); }
    SelectFuse(a, ResultBlockOf, ResultOf, ResultOf);
  }

  /** Reordering loses nothing and repeats nothing: outside the results every block keeps its
      place in the reading order, and the results come out once each, in call order. */
  lemma ReorderConserves(ms: seq<Message>)
    requires AllAnswer(ms) && NonEmpty(UseIds(Flat(ms))) == NonEmpty(ResultIds(Flat(ms)))
    ensures var out, uses := Flat(Reorder(ms).messages), IndexTools(ms).uses;
      && Skeleton(out) == Skeleton(Flat(ms)) && UseIds(out) == UseIds(Flat(ms))
      && Results(out) == Group(AllCalls(ms, uses, |ms|), Pulled(Flat(ms), uses.Keys))
      && ResultIds(out) == AllCalls(ms, uses, |ms|) && Distinct(ResultIds(out)) && "" !in ResultIds(out)
  {
    var uses := IndexTools(ms).uses;
    var pulled := Pulled(Flat(ms), uses.Keys);
    var out := Reorder(ms).messages;
    IndexToolsRecords(ms);
    PulledRecords(Flat(ms), uses.Keys);
    AllCallsRecords(ms, uses, |ms|);
    StripFlat(ms, uses.Keys);
    forall id | id in uses ensures id in pulled { assert id in NonEmpty(UseIds(Flat(ms))); }
    GroupsRecorded(ms, uses, pulled);
    GroupRecords(AllCalls(ms, uses, |ms|), pulled);
    SkeletonUses(Flat(out));
    SkeletonUses(Flat(ms));
    if |uses| == 0 {
      assert uses == map[];
      NoAnswerNoResult(ms);
    } else {
      var some :| some in uses;
      assert some in pulled;
      StrippedHasNoResults(ms);
      LayoutConserves(Strip(ms, uses.Keys), Groups(ms, uses, pulled), []);
      FlatGroupsIsGroup(ms, uses, pulled, 0);
      assert Groups(ms, uses, pulled)[0..] == Groups(ms, uses, pulled);
    }
    ResultIdsOfResults(Flat(out));
  }

  lemma NoAnswerNoResult(ms: seq<Message>)
    requires AllAnswer(ms) && IndexTools(ms).uses == map[]
    ensures ResultIds(Flat(ms)) == [] && Results(Flat(ms)) == [] && AllCalls(ms, map[], |ms|) == []
  {
    IndexToolsRecords(ms);
    AllCallsRecords(ms, map[], |ms|);
    forall id | id in ResultIds(Flat(ms)) ensures id in NonEmpty(UseIds(Flat(ms))) {}
    NoMembers(ResultIds(Flat(ms)));
    NoMembers(AllCalls(ms, map[], |ms|));
    OnlyNonResults(Flat(ms));
  }

  lemma NoMembers(ids: seq<string>)
    ensures ids == [] <==> forall id :: id !in ids
  {
    if ids != [] { assert ids[0] in ids; }
  }

  lemma ReorderPairs(ms: seq<Message>)
    requires AllAnswer(ms) && NonEmpty(UseIds(Flat(ms))) == NonEmpty(ResultIds(Flat(ms)))
    requires Distinct(UseIds(Flat(ms))) && "" !in UseIds(Flat(ms))
    ensures Paired(Reorder(ms).messages, [])
  {
    var uses := IndexTools(ms).uses;
    assert uses.Keys == NonEmpty(UseIds(Flat(ms))) by { IndexToolsRecords(ms); }
    if |uses| == 0 {
      assert uses == map[];
      NoAnswerNoResult(ms);
      forall id | id in UseIds(Flat(ms)) ensures id in NonEmpty(UseIds(Flat(ms))) {}
      NoMembers(UseIds(Flat(ms)));
      NothingOwed(ms);
    } else {
      var pulled := Pulled(Flat(ms), uses.Keys);
      assert |pulled| != 0 by {
        var some :| some in uses;
        PulledRecords(Flat(ms), uses.Keys);
        assert some in NonEmpty(UseIds(Flat(ms))) && some in pulled;
      }
      ReorderGroups(ms);
      LayoutPaired(Strip(ms, uses.Keys), Groups(ms, uses, pulled), [], [], pulled);
    }
  }

  lemma ReorderGroups(ms: seq<Message>)
    requires AllAnswer(ms) && NonEmpty(UseIds(Flat(ms))) == NonEmpty(ResultIds(Flat(ms)))
    requires Distinct(UseIds(Flat(ms))) && "" !in UseIds(Flat(ms))
    ensures var uses := IndexTools(ms).uses;
      var pulled := Pulled(Flat(ms), uses.Keys);
      Ready(Strip(ms, uses.Keys), Groups(ms, uses, pulled), pulled)
  {
    var uses := IndexTools(ms).uses;
    var pulled, st := Pulled(Flat(ms), uses.Keys), Strip(ms, uses.Keys);
    IndexToolsRecords(ms);
    PulledRecords(Flat(ms), uses.Keys);
    StrippedHasNoResults(ms);
    forall i | 0 <= i < |ms| ensures ReadyAt(st[i], Groups(ms, uses, pulled)[i], pulled) {
      CallOrderWhenDistinct(ms, i);
      FlatMember(ms, i);
      forall id | id in UseIds(ms[i].content) ensures id in pulled {
        assert id in NonEmpty(UseIds(Flat(ms)));
      }
    }
  }

  lemma {:induction false} NothingOwed(ms: seq<Message>)
    requires UseIds(Flat(ms)) == [] && ResultIds(Flat(ms)) == []
    ensures Paired(ms, [])
  {
    if ms == [] {
    } else {
      FlatCons(ms);
      IdsConcat(ms[0].content, Flat(ms[1..]));
      NoResults(ms[0].content);
      NothingOwed(ms[1..]);
    }
  }

  // ----- the theorems -----

  lemma DroppedIds(ms: seq<Message>)
    ensures var d, e := Flat(DemotedOf(ms).out), Flat(DroppedOf(ms).kept);
      UseIds(e) == AnsweredIds(ms) && ResultIds(e) == ResultIds(d) && Results(e) == Results(d)
  {
    var ix, bs, d := IndexTools(ms), Flat(ms), Flat(DemotedOf(ms).out);
    assert Counts(ix.results, ResultIds(bs)) by { IndexToolsRecords(ms); }
    DemoteFlat(ms, ix.uses.Keys, {});
    DemotionKeepsCalls(bs, ix.uses.Keys, ResultIds(bs));
    DropFlat(DemotedOf(ms).out, ix.results);
    DropIds(d, ix.results, ResultIds(bs));
    DropKeepsResults(d, ix.results);
  }

  lemma DroppedState(ms: seq<Message>)
    ensures var d, e := Flat(DemotedOf(ms).out), Flat(DroppedOf(ms).kept);
      && UseIds(e) == AnsweredIds(ms) && Results(e) == Results(d)
      && Distinct(ResultIds(e))
      && AllAnswer(DroppedOf(ms).kept)
      && NonEmpty(UseIds(e)) == NonEmpty(ResultIds(e))
  {
    var bs, uses := Flat(ms), IndexTools(ms).uses.Keys;
    var e := Flat(DroppedOf(ms).kept);
    DroppedIds(ms);
    DemoteFlat(ms, uses, {});
    DemoteIds(bs, uses, {});
    assert uses == NonEmpty(UseIds(bs)) by { IndexToolsRecords(ms); }
    forall id | true ensures id in UseIds(e) <==> id in UseIds(bs) && id in ResultIds(bs) {
      AnsweredMember(bs, ResultIds(bs), id);
    }
  }

  lemma AnsweredMember(bs: seq<Block>, answers: seq<string>, id: string)
    ensures id in Select(bs, AnsweredUseOf(answers)) <==> id in UseIds(bs) && id in answers
  {
    SelectMember(bs, AnsweredUseOf(answers), id);
    SelectMember(bs, UseOf, id);
    forall i | 0 <= i < |bs|
      ensures id in AnsweredUseOf(answers)(bs[i]) <==> id in UseOf(bs[i]) && id in answers
    {}
  }

  lemma DropKeepsResults(bs: seq<Block>, results: map<string, nat>)
    ensures Results(Select(bs, AnsweredOf(results))) == Results(bs)
    ensures Skeleton(Select(bs, AnsweredOf(results))) == Select(Skeleton(bs), AnsweredOf(results))
  {
    var f := AnsweredOf(results);
    var h := AnsweredNonResultOf(results);
    forall b | true
      ensures Select(f(b), ResultBlockOf) == ResultBlockOf(b)
      ensures Select(f(b), NonResultOf) == h(b) && Select(NonResultOf(b), f) == h(b)
    {
      SelectOne(b, ResultBlockOf);
      SelectOne(b, NonResultOf);
      SelectOne(b, f);
    }
    SelectFuse(bs, f, ResultBlockOf, ResultBlockOf);
    SelectFuse(bs, f, NonResultOf, h);
    SelectFuse(bs, NonResultOf, f, h);
  }

  function AnsweredNonResultOf(results: map<string, nat>): Block -> seq<Block> {
    b => if IsResult(b) || Unanswered(b, results) then [] else [b]
  }

  lemma {:induction false} DemotionKeepsCalls(bs: seq<Block>, uses: set<string>, answers: seq<string>)
    ensures Select(DemoteBlocks(bs, uses, {}).out, AnsweredUseOf(answers)) == Select(bs, AnsweredUseOf(answers))
  {
    var out := DemoteBlocks(bs, uses, {}).out;
    DemoteInPlace(bs, uses, {});
    SelectPointwise(bs, out, AnsweredUseOf(answers));
  }

  lemma {:induction false} SelectPointwise<T>(a: seq<Block>, b: seq<Block>, f: Block -> seq<T>)
    requires |a| == |b| && forall i :: 0 <= i < |a| ==> f(a[i]) == f(b[i])
    ensures Select(a, f) == Select(b, f)
  {
    if a == [] {
    } else {
      SelectPointwise(a[..|a| - 1], b[..|b| - 1], f);
    }
  }

  /** Whether the index finds anything at all; when it does not, the history is left as is. */
  predicate IndexFinds(ms: seq<Message>) {
    NonEmpty(UseIds(Flat(ms))) != {} || ResultIds(Flat(ms)) != []
  }

  lemma IndexFindsIsTheGuard(ms: seq<Message>)
    ensures var ix := IndexTools(ms);
      IndexFinds(ms) <==> !(|ix.uses| == 0 && |ix.results| == 0)
  {
    var ix := IndexTools(ms);
    IndexToolsRecords(ms);
    NoMembers(ResultIds(Flat(ms)));
    assert |ix.uses| == 0 <==> ix.uses.Keys == {};
    assert |ix.results| == 0 <==> ix.results.Keys == {};
  }

  /** When a history can be repaired: the calls that have an answer carry distinct, non-empty
      ids, and a history holding only nameless calls has something else to index. */
  predicate Repairable(ms: seq<Message>) {
    && Distinct(AnsweredIds(ms))
    && "" !in AnsweredIds(ms)
    && ("" in UseIds(Flat(ms)) ==> IndexFinds(ms))
  }

  lemma UntouchedState(ms: seq<Message>)
    requires !IndexFinds(ms)
    ensures PairTools(ms) == Outcome(ms, []) && ResultIds(Flat(ms)) == [] && AnsweredIds(ms) == []
    ensures UseIds(Flat(ms)) == [] <==> "" !in UseIds(Flat(ms))
  {
    IndexFindsIsTheGuard(ms);
    forall id | true ensures id !in AnsweredIds(ms) { AnsweredMember(Flat(ms), ResultIds(Flat(ms)), id); }
    NoMembers(AnsweredIds(ms));
    NoMembers(UseIds(Flat(ms)));
    forall id | id in UseIds(Flat(ms)) ensures id == "" || id in NonEmpty(UseIds(Flat(ms))) {}
  }

  lemma TouchedState(ms: seq<Message>)
    requires IndexFinds(ms)
    ensures var out, e := PairTools(ms).messages, DroppedOf(ms).kept;
      && out == Reorder(e).messages
      && UseIds(Flat(out)) == AnsweredIds(ms)
      && Distinct(ResultIds(Flat(out))) && "" !in ResultIds(Flat(out))
      && Skeleton(Flat(out)) == Skeleton(Flat(e))
  {
    IndexFindsIsTheGuard(ms);
    DroppedState(ms);
    ReorderConserves(DroppedOf(ms).kept);
  }

  /** After `pairTools`, every surviving call has exactly one result, placed at the head of the
      next message in call order, exactly when the history is repairable. */
  lemma PairsExactlyWhenRepairable(ms: seq<Message>)
    ensures Paired(PairTools(ms).messages, []) <==> Repairable(ms)
  {
    if IndexFinds(ms) {
      assert Repairable(ms) <==> Distinct(AnsweredIds(ms)) && "" !in AnsweredIds(ms);
      RepairableIsPaired(ms);
      PairedIsRepairable(ms);
    } else {
      UntouchedState(ms);
      if "" !in UseIds(Flat(ms)) { NothingOwed(ms); }
      if Paired(ms, []) { PairedIds(ms, []); }
    }
  }

  /** A history whose only call has no id, and no result: the early return keeps the call,
      though nothing answers it. */
  lemma NamelessCallStays()
    ensures var ms := [Message(Assistant, [EmptyBlock(BlockToolUse).(toolUse := Some(NO_TOOL_USE))], "", "")];
      PairTools(ms) == Outcome(ms, []) && UseIds(Flat(ms)) == [""] && !Paired(ms, [])
  {
    var call := EmptyBlock(BlockToolUse).(toolUse := Some(NO_TOOL_USE));
    var ms := [Message(Assistant, [call], "", "")];
    assert ms[..0] == [] && Flat(ms) == [call];
    IdsOne(call);
    IndexFindsIsTheGuard(ms);
    UntouchedState(ms);
    PairsExactlyWhenRepairable(ms);
  }

  lemma RepairableIsPaired(ms: seq<Message>)
    requires IndexFinds(ms)
    ensures Distinct(AnsweredIds(ms)) && "" !in AnsweredIds(ms) ==> Paired(PairTools(ms).messages, [])
  {
    TouchedState(ms);
    if Distinct(AnsweredIds(ms)) && "" !in AnsweredIds(ms) {
      DroppedState(ms);
      ReorderPairs(DroppedOf(ms).kept);
    }
  }

  lemma PairedIsRepairable(ms: seq<Message>)
    requires IndexFinds(ms)
    ensures Paired(PairTools(ms).messages, []) ==> Distinct(AnsweredIds(ms)) && "" !in AnsweredIds(ms)
  {
    TouchedState(ms);
    var out := PairTools(ms).messages;
    if Paired(out, []) {
      PairedIds(out, []);
      assert [] + UseIds(Flat(out)) == UseIds(Flat(out));
      assert ResultIds(Flat(out)) == AnsweredIds(ms);
    }
  }

  /** A history in its final form: paired, with distinct non-empty call ids. */
  predicate Canonical(ms: seq<Message>) {
    Paired(ms, []) && Distinct(UseIds(Flat(ms))) && "" !in UseIds(Flat(ms))
  }

  lemma RepairedIsCanonical(ms: seq<Message>)
    requires Repairable(ms)
    ensures Canonical(PairTools(ms).messages)
    ensures IndexFinds(ms) ==> UseIds(Flat(PairTools(ms).messages)) == AnsweredIds(ms)
  {
    PairsExactlyWhenRepairable(ms);
    if IndexFinds(ms) { TouchedState(ms); } else { UntouchedState(ms); }
  }

  /** Stage by stage, there is nothing to do: no repeated call, no orphan, nobody unanswered. */
  lemma CanonicalIsIndexed(ms: seq<Message>)
    requires Canonical(ms)
    ensures var ix, bs := IndexTools(ms), Flat(ms);
      && ix.dups == [] && Distinct(ResultIds(bs))
      && Unkept(ResultIds(bs), ix.uses.Keys, {}) && AllCounted(UseIds(bs), ix.results)
  {
    PairedIds(ms, []);
    IndexToolsRecords(ms);
  }

  /** A history in final form is left alone, without a note. */
  lemma CanonicalIsFixed(ms: seq<Message>)
    requires Canonical(ms)
    ensures PairTools(ms) == Outcome(ms, [])
  {
    CanonicalIsIndexed(ms);
    DemoteMessagesNothing(ms, IndexTools(ms).uses.Keys, {});
    DropNothing(ms, IndexTools(ms).results);
    ReorderFixed(ms);
  }

  /** Repairing twice is repairing once, and the second repair reports nothing. */
  lemma PairToolsIdempotent(ms: seq<Message>)
    requires Repairable(ms)
    ensures PairTools(PairTools(ms).messages) == Outcome(PairTools(ms).messages, [])
  {
    RepairedIsCanonical(ms);
    CanonicalIsFixed(PairTools(ms).messages);
  }

  lemma ReorderFixed(ms: seq<Message>)
    requires Canonical(ms)
    ensures Reorder(ms) == Outcome(ms, [])
  {
    var uses := IndexTools(ms).uses;
    var pulled := Pulled(Flat(ms), uses.Keys);
    assert uses.Keys == NonEmpty(UseIds(Flat(ms))) by { IndexToolsRecords(ms); }
    PairedIds(ms, []);
    if |uses| != 0 {
      assert |pulled| != 0 by {
        var some :| some in uses;
        PulledRecords(Flat(ms), uses.Keys);
        assert some in pulled;
      }
      assert Layout(Strip(ms, uses.Keys), Groups(ms, uses, pulled), []) == ms by {
        forall i | 0 <= i < |ms|
          ensures FittedAt(ms[i], Strip(ms, uses.Keys)[i], Groups(ms, uses, pulled)[i], pulled)
        {
          FitsAgain(ms, i);
        }
        LayoutRebuilds(ms, Strip(ms, uses.Keys), Groups(ms, uses, pulled), [], [], pulled);
      }
    }
  }

  /** `st` is `m` without its results, `group` the results of its calls, and every result of
      `m` is the one on record. */
  ghost predicate FittedAt(m: Message, st: Message, group: seq<Block>, pulled: map<string, Block>) {
    && st == m.(content := Skeleton(m.content))
    && Grouped(UseIds(m.content), pulled) && group == Group(UseIds(m.content), pulled)
    && forall k :: 0 <= k < |m.content| ==> OnRecord(m.content[k], pulled)
  }

  lemma FitsAgain(ms: seq<Message>, i: nat)
    requires Canonical(ms) && i < |ms|
    ensures var uses := IndexTools(ms).uses;
      var pulled := Pulled(Flat(ms), uses.Keys);
      FittedAt(ms[i], Strip(ms, uses.Keys)[i], Groups(ms, uses, pulled)[i], pulled)
  {
    var uses := IndexTools(ms).uses;
    assert uses.Keys == NonEmpty(UseIds(Flat(ms))) by { IndexToolsRecords(ms); }
    PairedIds(ms, []);
    PulledRecords(Flat(ms), uses.Keys);
    FlatMember(ms, i);
    CallOrderWhenDistinct(ms, i);
    StripsToSkeleton(ms, i, uses.Keys);
  }

  ghost predicate OnRecord(b: Block, pulled: map<string, Block>) {
    IsResult(b) ==> ResultId(b) in pulled && pulled[ResultId(b)] == b
  }

  lemma StripsToSkeleton(ms: seq<Message>, i: nat, uses: set<string>)
    requires i < |ms|
    requires Distinct(ResultIds(Flat(ms))) && forall id :: id in ResultIds(Flat(ms)) ==> id in uses
    ensures Strip(ms, uses)[i] == ms[i].(content := Skeleton(ms[i].content))
    ensures forall k :: 0 <= k < |ms[i].content| ==> OnRecord(ms[i].content[k], Pulled(Flat(ms), uses))
  {
    var content := ms[i].content;
    forall k | 0 <= k < |content|
      ensures OnRecord(content[k], Pulled(Flat(ms), uses))
      ensures UnpulledOf(uses)(content[k]) == NonResultOf(content[k])
    {
      if IsResult(content[k]) { RecordedAgain(ms, i, k, uses); }
    }
    SelectSame(content, UnpulledOf(uses), NonResultOf);
    StripEach(ms, uses);
  }

  lemma RecordedAgain(ms: seq<Message>, i: nat, k: nat, uses: set<string>)
    requires i < |ms| && k < |ms[i].content| && IsResult(ms[i].content[k])
    requires Distinct(ResultIds(Flat(ms))) && forall id :: id in ResultIds(Flat(ms)) ==> id in uses
    ensures var b := ms[i].content[k];
      ResultId(b) in uses && ResultId(b) in Pulled(Flat(ms), uses) && Pulled(Flat(ms), uses)[ResultId(b)] == b
  {
    var content := ms[i].content;
    assert ResultId(content[k]) in ResultOf(content[k]);
    SelectMember(content, ResultOf, ResultId(content[k]));
    FlatMember(ms, i);
    FlatSplit(ms, i);
    FlatCons(ms[i..]);
    var at := |Flat(ms[..i])| + k;
    assert Flat(ms)[at] == content[k];
    PulledIsTheBlock(Flat(ms), uses, at);
  }

  lemma {:induction false} LayoutRebuilds(
      ms: seq<Message>, st: seq<Message>, groups: seq<seq<Block>>, carry: seq<Block>,
      owed: seq<string>, pulled: map<string, Block>)
    requires Paired(ms, owed) && |st| == |ms| && |groups| == |ms|
    requires forall i :: 0 <= i < |ms| ==> FittedAt(ms[i], st[i], groups[i], pulled)
    requires Grouped(owed, pulled) && carry == Group(owed, pulled)
    ensures Layout(st, groups, carry) == ms
  {
    GroupRecords(owed, pulled);
    if ms != [] {
      assert FittedAt(ms[0], st[0], groups[0], pulled);
      HostRebuilds(ms[0], carry, owed, pulled);
      LayoutRebuilds(ms[1..], st[1..], groups[1..], groups[0], UseIds(ms[0].content), pulled);
      HeadTail(ms, 0);
    }
  }

  lemma HostRebuilds(m: Message, carry: seq<Block>, owed: seq<string>, pulled: map<string, Block>)
    requires LeadsWith(m, owed) && |carry| == |owed|
    requires forall k :: 0 <= k < |owed| ==> owed[k] in pulled && carry[k] == pulled[owed[k]]
    requires forall k :: 0 <= k < |m.content| ==> OnRecord(m.content[k], pulled)
    ensures Host(carry, m.(content := Skeleton(m.content))) == [m]
  {
    var lead, tail := m.content[..|owed|], m.content[|owed|..];
    assert m.content == lead + tail;
    forall k | 0 <= k < |owed| ensures carry[k] == lead[k] {
      assert ResultId(m.content[k]) == owed[k];
    }
    assert carry == lead;
    LeadIdsOnly(lead, owed);
    IdsConcat(lead, tail);
    NoResults(tail);
    OnlyResults(lead);
    assert Skeleton(m.content) == tail;
    assert carry + tail == m.content && m.(content := m.content) == m;
    assert carry == [] ==> tail == m.content;
  }

  lemma {:induction false} OnlyResults(bs: seq<Block>)
    requires forall k :: 0 <= k < |bs| ==> IsResult(bs[k])
    ensures Skeleton(bs) == []
  {
    if bs == [] {
    } else {
      OnlyResults(bs[..|bs| - 1]);
    }
  }

  /** Conservation.  Demotion rewrites results in place (`DemoteInPlace` says which); after it,
      only unanswered calls vanish, everything else but the results keeps its order, and the
      surviving results are all there, unchanged and once each. */
  lemma PairToolsConserves(ms: seq<Message>)
    requires IndexFinds(ms)
    ensures var ix, d, out := IndexTools(ms), DemoteBlocks(Flat(ms), IndexTools(ms).uses.Keys, {}).out,
                              Flat(PairTools(ms).messages);
      && Skeleton(out) == Select(Skeleton(d), AnsweredOf(ix.results))
      && (forall b :: b in Results(out) <==> b in Results(d))
      && Distinct(ResultIds(out))
  {
    var ix, e := IndexTools(ms), DroppedOf(ms).kept;
    var d, out := Flat(DemotedOf(ms).out), Flat(PairTools(ms).messages);
    DemoteFlat(ms, ix.uses.Keys, {});
    DroppedState(ms);
    TouchedState(ms);
    DropFlat(DemotedOf(ms).out, ix.results);
    DropKeepsResults(d, ix.results);
    ReorderConserves(e);
    var uses := IndexTools(e).uses;
    var pulled := Pulled(Flat(e), uses.Keys);
    IndexToolsRecords(e);
    PulledRecords(Flat(e), uses.Keys);
    AllCallsRecords(e, uses, |e|);
    GroupMembers(AllCalls(e, uses, |e|), pulled);
    forall b | true ensures b in Results(out) <==> b in Results(d) {
      ResultsMember(Flat(e), b);
      if b in Results(d) {
        var i :| 0 <= i < |Flat(e)| && Flat(e)[i] == b;
        assert ResultId(b) in ResultOf(b);
        SelectMember(Flat(e), ResultOf, ResultId(b));
        assert ResultId(b) in NonEmpty(UseIds(Flat(e)));
        PulledIsTheBlock(Flat(e), uses.Keys, i);
      }
    }
  }

  lemma ResultsMember(bs: seq<Block>, b: Block)
    ensures b in Results(bs) <==> IsResult(b) && b in bs
  {
    SelectMember(bs, ResultBlockOf, b);
  }

  lemma {:induction false} GroupMembers(ids: seq<string>, pulled: map<string, Block>)
    ensures forall b :: b in Group(ids, pulled) <==> exists id :: id in ids && id in pulled && pulled[id] == b
  {
    if ids == [] {
    } else {
      var front, id := ids[..|ids| - 1], ids[|ids| - 1];
      assert ids == front + [id];
      GroupMembers(front, pulled);
    }
  }
}
