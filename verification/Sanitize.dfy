/** `Sanitize` and its stages, as they rewrite a request in place: backend/ir/sanitize.go.

    Each method is proved against the function of `Pairing` or `History` that says what its
    stage computes. */
module Sanitizer {
  import opened Ir
  import opened Seqs
  import opened Blocks
  import opened Pairing
  import opened History
  import opened Conservation
  import ToolDecl

  /** Everything a run of `Sanitize` tells the client, stage by stage. */
  datatype Report = Report(
    decode: seq<string>, tools: seq<ToolDecl.Note>, pairing: seq<Note>,
    pruning: seq<PruneNote>, merged: nat)

  // ----- indexing -----

  method BuildIndex(r: Request) returns (uses: map<string, Site>, results: map<string, nat>, dups: seq<Note>)
    ensures Index(uses, results, dups) == IndexTools(r.messages)
  {
    uses, results, dups := map[], map[], [];
    for mi := 0 to |r.messages|
      invariant Index(uses, results, dups) == IndexMessages(r.messages, mi)
    {
      var content := r.messages[mi].content;
      for bi := 0 to |content|
        invariant Index(uses, results, dups) == IndexBlocks(IndexMessages(r.messages, mi), content, mi, bi)
      {
        var b := content[bi];
        if b.kind == BlockToolUse {
          if b.toolUse.Some? && b.toolUse.value.id != "" {
            var id := b.toolUse.value.id;
            if id in uses {
              dups := dups + [DuplicateUse(id)];
            }
            uses := uses[id := Site(mi, bi)];
          }
        } else if b.kind == BlockToolResult {
          if b.toolResult.Some? {
            var id := b.toolResult.value.toolUseId;
            results := results[id := CountIn(results, id) + 1];
          }
        }
      }
    }
  }

  // ----- demotion, back to front -----

  /** What is left to do in front, followed by what is done already. */
  function Onto<T>(front: Demoted<seq<T>>, done: seq<T>, notes: seq<Note>): Demoted<seq<T>> {
    Demoted(front.out + done, front.kept, notes + front.notes)
  }

  lemma OntoNothing<T>(d: Demoted<seq<T>>)
    ensures Onto(d, [], []) == d
  {
    assert d.out + [] == d.out && [] + d.notes == d.notes;
  }

  lemma DemoteMessagesStep(
      front: seq<Message>, m: Message, uses: set<string>, kept: set<string>, done: seq<Message>, notes: seq<Note>)
    ensures var last := DemoteBlocks(m.content, uses, kept);
      Onto(DemoteMessages(front + [m], uses, kept), done, notes)
      == Onto(DemoteMessages(front, uses, last.kept), [m.(content := last.out)] + done, notes + last.notes)
  {
    var last := DemoteBlocks(m.content, uses, kept);
    var rest := DemoteMessages(front, uses, last.kept);
    assert (front + [m])[..|front|] == front;
    assert rest.out + [m.(content := last.out)] + done == rest.out + ([m.(content := last.out)] + done);
    assert notes + (last.notes + rest.notes) == notes + last.notes + rest.notes;
  }

  lemma DemoteBlocksStep(
      front: seq<Block>, b: Block, uses: set<string>, kept: set<string>, done: seq<Block>, notes: seq<Note>)
    ensures var last := DemoteBlock(b, uses, kept);
      Onto(DemoteBlocks(front + [b], uses, kept), done, notes)
      == Onto(DemoteBlocks(front, uses, last.kept), [last.out] + done, notes + last.notes)
  {
    var last := DemoteBlock(b, uses, kept);
    var rest := DemoteBlocks(front, uses, last.kept);
    assert (front + [b])[..|front|] == front;
    assert rest.out + [last.out] + done == rest.out + ([last.out] + done);
    assert notes + (last.notes + rest.notes) == notes + last.notes + rest.notes;
  }

  method DemoteOrphans(r: Request, uses: map<string, Site>) returns (notes: seq<Note>)
    modifies r`messages
    ensures var d := DemoteMessages(old(r.messages), uses.Keys, {});
      r.messages == d.out && notes == d.notes
    ensures uses.Keys == NonEmpty(UseIds(Flat(old(r.messages)))) ==> Retold(old(r.messages), r.messages)
  {
    ghost var was := r.messages;
    notes := [];
    var kept: set<string> := {};
    var mi := |r.messages|;
    OntoNothing(DemoteMessages(was, uses.Keys, {}));
    assert was[..mi] == was && was[mi..] == [];
    while mi > 0
      invariant 0 <= mi <= |was| == |r.messages| && r.messages[..mi] == was[..mi]
      invariant DemoteMessages(was, uses.Keys, {})
             == Onto(DemoteMessages(was[..mi], uses.Keys, kept), r.messages[mi..], notes)
    {
      mi := mi - 1;
      ghost var now, done := r.messages, r.messages[mi + 1..];
      OneBack(was, now, mi);
      DemoteMessagesStep(was[..mi], r.messages[mi], uses.Keys, kept, done, notes);
      var content, demoted;
      content, kept, demoted := DemoteContent(r.messages[mi].content, uses, kept);
      notes := notes + demoted;
      r.messages := r.messages[mi := r.messages[mi].(content := content)];
      Replaced(now, mi, now[mi].(content := content));
    }
    if uses.Keys == NonEmpty(UseIds(Flat(was))) { DemotionRetells(was, uses.Keys); }
  }

  method DemoteContent(blocks: seq<Block>, uses: map<string, Site>, kept0: set<string>)
    returns (content: seq<Block>, kept: set<string>, notes: seq<Note>)
    ensures Demoted(content, kept, notes) == DemoteBlocks(blocks, uses.Keys, kept0)
  {
    content, kept, notes := blocks, kept0, [];
    var bi := |content|;
    OntoNothing(DemoteBlocks(blocks, uses.Keys, kept0));
    assert blocks[..bi] == blocks && content[bi..] == [];
    while bi > 0
      invariant 0 <= bi <= |blocks| == |content| && content[..bi] == blocks[..bi]
      invariant DemoteBlocks(blocks, uses.Keys, kept0)
             == Onto(DemoteBlocks(blocks[..bi], uses.Keys, kept), content[bi..], notes)
    {
      bi := bi - 1;
      ghost var now, done := content, content[bi + 1..];
      OneBack(blocks, now, bi);
      DemoteBlocksStep(blocks[..bi], content[bi], uses.Keys, kept, done, notes);
      var b, note;
      b, kept, note := DemoteOne(content[bi], uses, kept);
      notes := notes + note;
      content := content[bi := b];
      Replaced(now, bi, b);
    }
    assert blocks[..0] == [] && content[0..] == content;
    assert [] + content == content && notes + [] == notes;
  }

  method DemoteOne(b: Block, uses: map<string, Site>, kept0: set<string>)
    returns (out: Block, kept: set<string>, notes: seq<Note>)
    ensures Demoted(out, kept, notes) == DemoteBlock(b, uses.Keys, kept0)
  {
    out, kept, notes := b, kept0, [];
    if b.kind != BlockToolResult || b.toolResult.None? {
      return;
    }
    var id := b.toolResult.value.toolUseId;
    if id !in uses {
      out, notes := DemoteToText(b), [OrphanDemoted(id)];
    } else if id in kept {
      out, notes := DemoteToText(b), [DuplicateDemoted(id)];
    } else {
      kept := kept + {id};
    }
  }

  // ----- dropping unanswered calls -----

  method DropUnanswered(r: Request, results: map<string, nat>) returns (notes: seq<Note>)
    modifies r`messages
    ensures Dropped(r.messages, notes) == DropMessages(old(r.messages), results)
  {
    var kept;
    kept, notes := DropEach(r.messages, results);
    if |notes| > 0 {
      r.messages := kept;
    }
  }

  method DropEach(ms: seq<Message>, results: map<string, nat>) returns (kept: seq<Message>, notes: seq<Note>)
    ensures Dropped(kept, notes) == DropMessages(ms, results)
    ensures notes == [] ==> kept == ms
  {
    kept, notes := [], [];
    for mi := 0 to |ms|
      invariant Dropped(kept, notes) == DropMessages(ms[..mi], results)
      invariant notes == [] ==> kept == ms[..mi]
    {
      DropMore(ms[..mi], ms[mi], results);
      OneMore(ms, mi);
      kept, notes := DropFrom(ms[mi], results, kept, notes);
    }
    assert ms[..|ms|] == ms;
  }

  lemma DropMore(front: seq<Message>, m: Message, results: map<string, nat>)
    ensures DropMessages(front + [m], results) == DropOne(DropMessages(front, results), m, results)
  {
    var ms := front + [m];
    assert ms[..|ms| - 1] == front && ms[|ms| - 1] == m;
  }

  method DropFrom(m: Message, results: map<string, nat>, kept0: seq<Message>, notes0: seq<Note>)
    returns (kept: seq<Message>, notes: seq<Note>)
    ensures Dropped(kept, notes) == DropOne(Dropped(kept0, notes0), m, results)
    ensures notes == [] ==> notes0 == [] && kept == kept0 + [m]
  {
    var content, dropped := DropContent(m.content, results);
    kept, notes := kept0, notes0 + dropped;
    if |content| == 0 && |m.content| > 0 {
      notes := notes + [MessageDropped(m.role)];
      return;
    }
    kept := kept + [m.(content := content)];
    if notes == [] { KeepsSilently(Dropped(kept0, notes0), m, results); }
  }

  lemma KeepsSilently(front: Dropped, m: Message, results: map<string, nat>)
    requires DropOne(front, m, results).notes == []
    ensures front.notes == [] && DropOne(front, m, results).kept == front.kept + [m]
  {
    var notes := Select(m.content, DropNotesOf(results));
    assert |front.notes + notes| <= |DropOne(front, m, results).notes|;
    NothingTwice(front.notes, notes);
    SelectSilently(m.content, results);
    assert m == m.(content := m.content);
  }

  method DropContent(blocks: seq<Block>, results: map<string, nat>) returns (content: seq<Block>, notes: seq<Note>)
    ensures content == Select(blocks, AnsweredOf(results)) && notes == Select(blocks, DropNotesOf(results))
  {
    content, notes := [], [];
    for bi := 0 to |blocks|
      invariant content == Select(blocks[..bi], AnsweredOf(results))
      invariant notes == Select(blocks[..bi], DropNotesOf(results))
    {
      assert blocks[..bi + 1][..bi] == blocks[..bi];
      var b := blocks[bi];
      if b.kind == BlockToolUse && b.toolUse.Some? && CountIn(results, b.toolUse.value.id) == 0 {
        notes := notes + [UseDropped(b.toolUse.value.id)];
        continue;
      }
      content := content + [b];
    }
    assert blocks[..|blocks|] == blocks;
  }

  lemma NothingTwice<T>(a: seq<T>, b: seq<T>)
    requires a + b == []
    ensures a == [] && b == []
  {
    assert |a| + |b| == |a + b|;
  }

  lemma {:induction false} SelectSilently(bs: seq<Block>, results: map<string, nat>)
    requires Select(bs, DropNotesOf(results)) == []
    ensures Select(bs, AnsweredOf(results)) == bs
  {
    if bs == [] {
    } else {
      var front, b := bs[..|bs| - 1], bs[|bs| - 1];
      var f := DropNotesOf(results);
      NothingTwice(Select(front, f), f(b));
      SelectSilently(front, results);
      assert AnsweredOf(results)(b) == [b];
      FrontLast(bs);
    }
  }

  // ----- sorting -----

  ghost predicate SortedBy<T>(s: seq<T>, key: T -> int) {
    forall i, j :: 0 <= i < j < |s| ==> key(s[i]) <= key(s[j])
  }

  /** Only the element at `j` may be out of order, and only against those before it. */
  ghost predicate SortedBut<T>(s: seq<T>, j: nat, key: T -> int) {
    forall p, q :: 0 <= p < q < |s| && q != j ==> key(s[p]) <= key(s[q])
  }

  lemma SwapDown<T>(s: seq<T>, j: nat, key: T -> int)
    requires 0 < j < |s| && SortedBut(s, j, key) && key(s[j]) < key(s[j - 1])
    ensures SortedBut(s[j := s[j - 1]][j - 1 := s[j]], j - 1, key)
  {
    var t := s[j := s[j - 1]][j - 1 := s[j]];
    forall p, q | 0 <= p < q < |t| && q != j - 1 ensures key(t[p]) <= key(t[q]) {
      if q == j {
        if p < j - 1 { assert key(s[p]) <= key(s[j - 1]); }
      } else if p == j {
        assert key(s[j - 1]) <= key(s[q]);
      } else if p == j - 1 {
        assert key(s[j]) <= key(s[q]);
      } else {
        assert key(s[p]) <= key(s[q]);
      }
    }
  }

  lemma SettledIn<T>(s: seq<T>, j: nat, key: T -> int)
    requires j < |s| && SortedBut(s, j, key) && (j > 0 ==> key(s[j - 1]) <= key(s[j]))
    ensures SortedBy(s, key)
  {
    forall p, q | 0 <= p < q < |s| ensures key(s[p]) <= key(s[q]) {
      if q == j && p < j - 1 { assert key(s[p]) <= key(s[j - 1]); }
    }
  }

  /** The hand-written insertion sort behind `sortByBlockIndex` and `sortInts`. */
  method InsertionSort<T>(a: array<T>, key: T -> int)
    modifies a
    ensures SortedBy(a[..], key) && multiset(a[..]) == multiset(old(a[..]))
  {
    var i := 1;
    while i < a.Length
      invariant 1 <= i && (i <= a.Length || a.Length == 0)
      invariant i <= a.Length ==> SortedBy(a[..i], key)
      invariant multiset(a[..]) == multiset(old(a[..]))
    {
      Insert(a, i, key);
      i := i + 1;
    }
  }

  method Insert<T>(a: array<T>, i: nat, key: T -> int)
    requires i < a.Length && SortedBy(a[..i], key)
    modifies a
    ensures SortedBy(a[..i + 1], key) && multiset(a[..]) == multiset(old(a[..]))
  {
    var j := i;
    while j > 0 && key(a[j]) < key(a[j - 1])
      invariant 0 <= j <= i
      invariant SortedBut(a[..i + 1], j, key)
      invariant multiset(a[..]) == multiset(old(a[..]))
    {
      ghost var s := a[..i + 1];
      SwapDown(s, j, key);
      a[j], a[j - 1] := a[j - 1], a[j];
      assert a[..i + 1] == s[j := s[j - 1]][j - 1 := s[j]];
      j := j - 1;
    }
    SettledIn(a[..i + 1], j, key);
  }

  // ----- reordering -----

  /** The ids among `done` whose calls stand in message `mi`, in some order and once each. */
  ghost predicate Gathered(ids: seq<string>, done: set<string>, uses: map<string, Site>, mi: nat) {
    ids != [] && Distinct(ids) && forall id :: id in ids <==> id in done && id in uses && uses[id].msg == mi
  }

  method GroupByMessage(uses: map<string, Site>) returns (orderByMsg: map<nat, seq<string>>)
    ensures forall mi :: mi in orderByMsg ==> Gathered(orderByMsg[mi], uses.Keys, uses, mi)
    ensures forall id :: id in uses ==> uses[id].msg in orderByMsg
  {
    orderByMsg := map[];
    var todo := uses.Keys;
    while todo != {}
      invariant todo <= uses.Keys
      invariant forall mi :: mi in orderByMsg ==> Gathered(orderByMsg[mi], uses.Keys - todo, uses, mi)
      invariant forall id :: id in uses && id !in todo ==> uses[id].msg in orderByMsg
      decreases todo
    {
      var id := Pick(todo);
      var mi := uses[id].msg;
      orderByMsg := orderByMsg[mi := (if mi in orderByMsg then orderByMsg[mi] else []) + [id]];
      todo := todo - {id};
    }
    assert uses.Keys - todo == uses.Keys;
  }

  /** Ids sorted by where their calls stand in message `mi` are the ids in call order. */
  lemma SortedIsCallOrder(ids: seq<string>, ms: seq<Message>, uses: map<string, Site>, mi: nat)
    requires mi < |ms| && SitesValid(uses, ms) && Gathered(ids, uses.Keys, uses, mi)
    requires forall i, j :: 0 <= i < j < |ids| ==> uses[ids[i]].block <= uses[ids[j]].block
    ensures ids == CallOrder(ms[mi].content, mi, uses, |ms[mi].content|)
  {
    var bs := ms[mi].content;
    var order := CallOrder(bs, mi, uses, |bs|);
    CallOrderRecords(bs, mi, uses, |bs|);
    CallOrderSorted(bs, mi, uses, |bs|);
    forall i, j | 0 <= i < j < |ids| ensures uses[ids[i]].block < uses[ids[j]].block {
      assert ids[i] in ids && ids[j] in ids && ids[i] != ids[j];
    }
    SameIncreasing(ids, order, id => if id in uses then uses[id].block else 0);
  }

  ghost predicate ByBlock(ids: seq<string>, uses: map<string, Site>, n: nat) {
    && (forall i :: 0 <= i < |ids| ==> ids[i] in uses && uses[ids[i]].block < n)
    && (forall i, j :: 0 <= i < j < |ids| ==> uses[ids[i]].block < uses[ids[j]].block)
  }

  lemma {:induction false} CallOrderSorted(bs: seq<Block>, mi: nat, uses: map<string, Site>, n: nat)
    requires n <= |bs|
    ensures ByBlock(CallOrder(bs, mi, uses, n), uses, n)
  {
    if n == 0 {
    } else {
      CallOrderSorted(bs, mi, uses, n - 1);
      var front, b := CallOrder(bs, mi, uses, n - 1), bs[n - 1];
      if IsUse(b) && UseId(b) in uses && uses[UseId(b)] == Site(mi, n - 1) {
        assert ByBlock(front + [UseId(b)], uses, n);
      } else {
        assert front + [] == front;
      }
    }
  }

  ghost predicate Increasing(s: seq<string>, key: string -> int) {
    forall i, j :: 0 <= i < j < |s| ==> key(s[i]) < key(s[j])
  }

  /** A strictly increasing listing of given members is unique. */
  lemma {:induction false} SameIncreasing(a: seq<string>, b: seq<string>, key: string -> int)
    requires Increasing(a, key) && Increasing(b, key)
    requires forall x :: x in a <==> x in b
    ensures a == b
  {
    assert a == [] <==> b == [] by {
      if a != [] { assert a[0] in b; }
      if b != [] { assert b[0] in a; }
    }
    if a != [] {
      var n, m := |a| - 1, |b| - 1;
      assert a[n] in b && b[m] in a;
      assert a[n] == b[m];
      forall x | true ensures x in a[..n] <==> x in b[..m] {
        if x in a[..n] { LastIsFresh(a, key, x); assert x in b; }
        if x in b[..m] { LastIsFresh(b, key, x); assert x in a; }
      }
      SameIncreasing(a[..n], b[..m], key);
    }
  }

  lemma LastIsFresh(a: seq<string>, key: string -> int, x: string)
    requires a != [] && Increasing(a, key) && x in a[..|a| - 1]
    ensures x != a[|a| - 1] && x in a
  {}

  /** Takes the answered results out of every message. */
  method PullResults(r: Request, uses: map<string, Site>) returns (pulled: map<string, Block>)
    modifies r`messages
    ensures r.messages == Strip(old(r.messages), uses.Keys)
    ensures pulled == Pulled(Flat(old(r.messages)), uses.Keys)
  {
    ghost var was := r.messages;
    pulled := map[];
    for mi := 0 to |r.messages|
      invariant |r.messages| == |was| && r.messages[mi..] == was[mi..]
      invariant r.messages[..mi] == Strip(was[..mi], uses.Keys)
      invariant pulled == Pulled(Flat(was[..mi]), uses.Keys)
    {
      ghost var now := r.messages;
      SameTail(now, was, mi);
      StripMore(was, mi, uses.Keys);
      var keep;
      keep, pulled := PullContent(r.messages[mi].content, uses, pulled, Flat(was[..mi]));
      r.messages := r.messages[mi := r.messages[mi].(content := keep)];
      Replaced(now, mi, now[mi].(content := keep));
    }
    assert was[..|was|] == was && r.messages[..|was|] == r.messages;
  }

  lemma SameTail<T>(a: seq<T>, b: seq<T>, i: nat)
    requires i < |a| == |b| && a[i..] == b[i..]
    ensures a[i] == b[i] && a[i + 1..] == b[i + 1..]
  {
    assert a[i..][0] == b[i..][0] && a[i..][1..] == b[i..][1..];
  }

  lemma StripMore(ms: seq<Message>, i: nat, uses: set<string>)
    requires i < |ms|
    ensures Flat(ms[..i + 1]) == Flat(ms[..i]) + ms[i].content
    ensures Strip(ms[..i + 1], uses)
         == Strip(ms[..i], uses) + [ms[i].(content := Select(ms[i].content, UnpulledOf(uses)))]
  {
    assert ms[..i + 1][..i] == ms[..i];
  }

  lemma PulledMore(before: seq<Block>, content: seq<Block>, i: nat, uses: set<string>)
    requires i < |content|
    ensures var b, pulled := content[i], Pulled(before + content[..i], uses);
      Pulled(before + content[..i + 1], uses) == if Pullable(b, uses) then pulled[ResultId(b) := b] else pulled
    ensures Select(content[..i + 1], UnpulledOf(uses))
         == Select(content[..i], UnpulledOf(uses)) + (if Pullable(content[i], uses) then [] else [content[i]])
  {
    assert content[..i + 1][..i] == content[..i];
    var seen := before + content[..i + 1];
    assert seen[..|seen| - 1] == before + content[..i] && seen[|seen| - 1] == content[i];
  }

  method PullContent(content: seq<Block>, uses: map<string, Site>, pulled0: map<string, Block>, ghost before: seq<Block>)
    returns (keep: seq<Block>, pulled: map<string, Block>)
    requires pulled0 == Pulled(before, uses.Keys)
    ensures keep == Select(content, UnpulledOf(uses.Keys))
    ensures pulled == Pulled(before + content, uses.Keys)
  {
    keep, pulled := [], pulled0;
    assert before + content[..0] == before;
    for bi := 0 to |content|
      invariant keep == Select(content[..bi], UnpulledOf(uses.Keys))
      invariant pulled == Pulled(before + content[..bi], uses.Keys)
    {
      PulledMore(before, content, bi, uses.Keys);
      var b := content[bi];
      if b.kind == BlockToolResult && b.toolResult.Some? && b.toolResult.value.toolUseId in uses {
        pulled := pulled[b.toolResult.value.toolUseId := b];
        continue;
      }
      keep := keep + [b];
    }
    assert content[..|content|] == content;
  }

  /** `order` holds, for each message that has calls, their ids in call order. */
  ghost predicate OrdersCalls(order: map<nat, seq<string>>, gs: seq<seq<Block>>, pulled: map<string, Block>) {
    && (forall mi :: mi in order ==> mi < |gs| && gs[mi] == Group(order[mi], pulled))
    && (forall mi :: 0 <= mi < |gs| && mi !in order ==> gs[mi] == [])
  }

  method SortGroups(grouped: map<nat, seq<string>>, uses: map<string, Site>, ghost ms: seq<Message>)
    returns (order: map<nat, seq<string>>)
    requires SitesValid(uses, ms)
    requires forall mi :: mi in grouped ==> Gathered(grouped[mi], uses.Keys, uses, mi)
    requires forall mi :: mi in grouped ==> mi < |ms|
    ensures order.Keys == grouped.Keys
    ensures forall mi :: mi in order ==> order[mi] == CallOrder(ms[mi].content, mi, uses, |ms[mi].content|)
  {
    order := grouped;
    var todo := grouped.Keys;
    while todo != {}
      invariant todo <= grouped.Keys && order.Keys == grouped.Keys
      invariant forall mi :: mi in todo ==> order[mi] == grouped[mi]
      invariant forall mi :: mi in order && mi !in todo ==>
        order[mi] == CallOrder(ms[mi].content, mi, uses, |ms[mi].content|)
      decreases todo
    {
      var mi := Pick(todo);
      var sorted := SortByBlockIndex(order[mi], uses);
      GatheredAgain(grouped[mi], sorted, uses, mi);
      SortedIsCallOrder(sorted, ms, uses, mi);
      order := order[mi := sorted];
      todo := todo - {mi};
    }
  }

  method SortByBlockIndex(ids: seq<string>, uses: map<string, Site>) returns (sorted: seq<string>)
    requires forall id :: id in ids ==> id in uses
    ensures multiset(sorted) == multiset(ids)
    ensures forall i :: 0 <= i < |sorted| ==> sorted[i] in uses
    ensures forall i, j :: 0 <= i < j < |sorted| ==> uses[sorted[i]].block <= uses[sorted[j]].block
  {
    var a := new string[|ids|](i requires 0 <= i < |ids| => ids[i]);
    assert a[..] == ids;
    var key := id => if id in uses then uses[id].block else 0;
    InsertionSort(a, key);
    sorted := a[..];
    forall i | 0 <= i < |sorted| ensures sorted[i] in uses {
      assert sorted[i] in multiset(sorted);
      assert sorted[i] in multiset(ids);
    }
    forall i, j | 0 <= i < j < |sorted| ensures uses[sorted[i]].block <= uses[sorted[j]].block {
      assert key(sorted[i]) <= key(sorted[j]);
    }
  }

  lemma GatheredAgain(ids: seq<string>, sorted: seq<string>, uses: map<string, Site>, mi: nat)
    requires Gathered(ids, uses.Keys, uses, mi) && multiset(sorted) == multiset(ids)
    ensures Gathered(sorted, uses.Keys, uses, mi)
  {
    RearrangedDistinct(ids, sorted);
  }

  /** Rearranging keeps members, and keeps them once each. */
  lemma RearrangedDistinct<T>(was: seq<T>, now: seq<T>)
    requires Distinct(was) && multiset(was) == multiset(now)
    ensures Distinct(now) && forall x :: x in now <==> x in was
  {
    forall x | true ensures x in now <==> x in was {
      assert x in multiset(now) <==> x in multiset(was);
    }
    DistinctCounts(was);
    forall i, j | 0 <= i < j < |now| ensures now[i] != now[j] {
      if now[i] == now[j] { TwiceCounts(now, i, j); }
    }
  }

  lemma {:induction false} DistinctCounts<T>(s: seq<T>)
    requires Distinct(s)
    ensures forall x :: multiset(s)[x] <= 1
  {
    if s == [] {
    } else {
      var front, last := s[..|s| - 1], s[|s| - 1];
      DistinctCounts(front);
      assert s == front + [last];
    }
  }

  lemma TwiceCounts<T>(s: seq<T>, i: nat, j: nat)
    requires i < j < |s| && s[i] == s[j]
    ensures multiset(s)[s[i]] >= 2
  {
    var a, b := s[..j], s[j..];
    assert s == a + b && multiset(s) == multiset(a) + multiset(b);
    assert a[i] in multiset(a) && b[0] in multiset(b);
  }

  /** The messages before `k` as they were, those from `k` on laid out with their groups. */
  ghost function Placed(st: seq<Message>, gs: seq<seq<Block>>, k: nat): seq<Message>
    requires k <= |st| == |gs|
  {
    st[..k] + Layout(st[k..], gs[k..], [])
  }

  lemma QuietBetween(
      order: map<nat, seq<string>>, gs: seq<seq<Block>>, pulled: map<string, Block>, msgs: seq<nat>, i: nat, k: nat)
    requires OrdersCalls(order, gs, pulled) && i < |msgs| && k <= |gs|
    requires forall mi :: mi in msgs <==> mi in order
    requires forall p, q :: 0 <= p < q < |msgs| ==> msgs[p] < msgs[q]
    requires k == if i + 1 < |msgs| then msgs[i + 1] else |gs|
    ensures msgs[i] in order && msgs[i] < k && gs[msgs[i]] == Group(order[msgs[i]], pulled)
    ensures forall j :: msgs[i] < j < k ==> gs[j] == []
  {
    assert msgs[i] in msgs;
    forall j | msgs[i] < j < k ensures gs[j] == [] {
      BetweenNeighbours(msgs, i, j);
    }
  }

  /** Puts every group behind its own message, last message first, so that no index moves
      before it is used. */
  method InsertGroups(r: Request, order: map<nat, seq<string>>, pulled: map<string, Block>, ghost gs: seq<seq<Block>>)
    requires |gs| == |r.messages| && OrdersCalls(order, gs, pulled)
    modifies r`messages
    ensures r.messages == Layout(old(r.messages), gs, [])
  {
    ghost var st := r.messages;
    var msgs := SortedKeys(order);
    var i := |msgs|;
    ghost var k := |st|;
    assert Placed(st, gs, k) == st;
    while i > 0
      invariant 0 <= i <= |msgs| && 0 <= k <= |st|
      invariant k == if i < |msgs| then msgs[i] else |st|
      invariant r.messages == Placed(st, gs, k)
    {
      i := i - 1;
      var mi := msgs[i];
      QuietBetween(order, gs, pulled, msgs, i, k);
      SkipQuiet(st, gs, mi + 1, k);
      var group := CollectGroup(order[mi], pulled);
      InsertAt(r, mi, group, st, gs);
      k := mi;
    }
    forall j | 0 <= j < k ensures gs[j] == [] { assert j in order ==> j in msgs; }
    SkipQuiet(st, gs, 0, k);
    assert st[0..] == st && gs[0..] == gs && st[..0] == [];
  }

  method SortedKeys(order: map<nat, seq<string>>) returns (msgs: seq<nat>)
    ensures forall mi :: mi in msgs <==> mi in order
    ensures forall i, j :: 0 <= i < j < |msgs| ==> msgs[i] < msgs[j]
  {
    msgs := [];
    var todo := order.Keys;
    while todo != {}
      invariant todo <= order.Keys
      invariant forall mi :: mi in msgs <==> mi in order && mi !in todo
      invariant Distinct(msgs)
      decreases todo
    {
      var mi := Pick(todo);
      msgs := msgs + [mi];
      todo := todo - {mi};
    }
    ghost var was := msgs;
    var a := new nat[|msgs|](i requires 0 <= i < |msgs| => msgs[i]);
    assert a[..] == msgs;
    InsertionSort(a, n => n);
    msgs := a[..];
    SortedStrictly(was, msgs);
  }

  lemma SortedStrictly(was: seq<nat>, now: seq<nat>)
    requires multiset(was) == multiset(now) && SortedBy(now, n => n) && Distinct(was)
    ensures forall n :: n in now <==> n in was
    ensures forall i, j :: 0 <= i < j < |now| ==> now[i] < now[j]
  {
    RearrangedDistinct(was, now);
    forall i, j | 0 <= i < j < |now| ensures now[i] < now[j] {
      assert (n => n)(now[i]) <= (n => n)(now[j]);
    }
  }

  lemma BetweenNeighbours(msgs: seq<nat>, i: nat, j: nat)
    requires i < |msgs| && forall p, q :: 0 <= p < q < |msgs| ==> msgs[p] < msgs[q]
    requires msgs[i] < j && (i + 1 < |msgs| ==> j < msgs[i + 1])
    ensures j !in msgs
  {
    forall p | 0 <= p < |msgs| ensures msgs[p] != j {
      if p <= i { assert p < i ==> msgs[p] < msgs[i]; } else { assert p > i + 1 ==> msgs[i + 1] < msgs[p]; }
    }
  }

  method CollectGroup(ids: seq<string>, pulled: map<string, Block>) returns (group: seq<Block>)
    ensures group == Group(ids, pulled)
  {
    group := [];
    for n := 0 to |ids|
      invariant group == Group(ids[..n], pulled)
    {
      assert ids[..n + 1][..n] == ids[..n];
      if ids[n] in pulled {
        group := group + [pulled[ids[n]]];
      }
    }
    assert ids[..|ids|] == ids;
  }

  /** Messages without a group need no work. */
  lemma {:induction false} SkipQuiet(st: seq<Message>, gs: seq<seq<Block>>, lo: nat, hi: nat)
    requires lo <= hi <= |st| == |gs| && forall j :: lo <= j < hi ==> gs[j] == []
    ensures Placed(st, gs, hi) == Placed(st, gs, lo)
    decreases hi - lo
  {
    if lo < hi {
      SkipQuiet(st, gs, lo + 1, hi);
      LayoutFrom(st, gs, lo);
    }
  }

  lemma LayoutFrom(st: seq<Message>, gs: seq<seq<Block>>, mi: nat)
    requires mi < |st| == |gs|
    ensures Placed(st, gs, mi) == st[..mi + 1] + Layout(st[mi + 1..], gs[mi + 1..], gs[mi])
  {
    assert st[mi..][1..] == st[mi + 1..] && gs[mi..][1..] == gs[mi + 1..];
    assert Layout(st[mi..], gs[mi..], []) == [st[mi]] + Layout(st[mi + 1..], gs[mi + 1..], gs[mi]);
    assert st[..mi + 1] == st[..mi] + [st[mi]];
  }

  /** A group joins the message after it, or goes in ahead of it. */
  lemma HostJoins(front: seq<Message>, m: Message, rest: seq<Message>, group: seq<Block>)
    requires group != []
    ensures var now := front + ([m] + rest);
      front + (Host(group, m) + rest) ==
        if m.role == User then now[|front| := m.(content := group + m.content)]
        else now[..|front|] + [Message(User, group, "", "")] + now[|front|..]
  {}

  /** What a group does to the message after it, if there is one. */
  lemma GroupSettles(st: seq<Message>, gs: seq<seq<Block>>, mi: nat)
    requires mi < |st| == |gs| && gs[mi] != []
    ensures var next, now := mi + 1, Placed(st, gs, mi + 1);
      Placed(st, gs, mi) ==
        if next < |now| && now[next].role == User
        then now[next := now[next].(content := gs[mi] + now[next].content)]
        else now[..next] + [Message(User, gs[mi], "", "")] + now[next..]
  {
    LayoutFrom(st, gs, mi);
    var next, now := mi + 1, Placed(st, gs, mi + 1);
    if next < |st| {
      var rest := Layout(st[next + 1..], gs[next + 1..], gs[next]);
      LayoutFrom(st, gs, next);
      assert st[next..][1..] == st[next + 1..] && gs[next..][1..] == gs[next + 1..];
      assert Layout(st[next..], gs[next..], gs[mi]) == Host(gs[mi], st[next]) + rest;
      OneMore(st, next);
      Associate(st[..next], [st[next]], rest);
      HostJoins(st[..next], st[next], rest, gs[mi]);
    } else {
      assert now == st[..next];
    }
  }

  method InsertAt(r: Request, mi: nat, group: seq<Block>, ghost st: seq<Message>, ghost gs: seq<seq<Block>>)
    requires mi < |st| == |gs| && group == gs[mi]
    requires r.messages == Placed(st, gs, mi + 1)
    modifies r`messages
    ensures r.messages == Placed(st, gs, mi)
  {
    if |group| == 0 {
      LayoutFrom(st, gs, mi);
      return;
    }
    GroupSettles(st, gs, mi);
    var next := mi + 1;
    if next < |r.messages| && r.messages[next].role == User {
      r.messages := r.messages[next := r.messages[next].(content := group + r.messages[next].content)];
      return;
    }
    r.messages := r.messages[..next] + [Message(User, group, "", "")] + r.messages[next..];
  }

  /** Groups the calls by message, each group in call order. */
  method OrderByMessage(uses: map<string, Site>, ghost ms: seq<Message>) returns (order: map<nat, seq<string>>)
    requires SitesValid(uses, ms)
    ensures forall mi :: mi in order ==>
      mi < |ms| && order[mi] == CallOrder(ms[mi].content, mi, uses, |ms[mi].content|)
    ensures forall mi :: 0 <= mi < |ms| && mi !in order ==>
      CallOrder(ms[mi].content, mi, uses, |ms[mi].content|) == []
  {
    var grouped := GroupByMessage(uses);
    forall mi | mi in grouped ensures mi < |ms| {
      assert grouped[mi][0] in grouped[mi];
    }
    order := SortGroups(grouped, uses, ms);
    forall mi | 0 <= mi < |ms| && mi !in order
      ensures CallOrder(ms[mi].content, mi, uses, |ms[mi].content|) == []
    {
      CallOrderRecords(ms[mi].content, mi, uses, |ms[mi].content|);
      NoMembers(CallOrder(ms[mi].content, mi, uses, |ms[mi].content|));
    }
  }

  method ReorderResults(r: Request) returns (notes: seq<Note>)
    modifies r`messages
    ensures Outcome(r.messages, notes) == Reorder(old(r.messages))
  {
    ghost var was := r.messages;
    var uses, _, _ := BuildIndex(r);
    if |uses| == 0 {
      return [];
    }
    var before := Snapshot(r.messages);
    assert SitesValid(uses, was) by { IndexToolsRecords(was); }
    var order := OrderByMessage(uses, was);
    var pulled := PullResults(r, uses);
    if |pulled| == 0 {
      return [];
    }
    InsertGroups(r, order, pulled, Groups(was, uses, pulled));
    var after := Snapshot(r.messages);
    if before == after {
      return [];
    }
    notes := [ResultsMoved(pulled.Keys)];
  }

  method RepairPairing(r: Request) returns (notes: seq<Note>)
    modifies r`messages
    ensures Outcome(r.messages, notes) == PairTools(old(r.messages))
  {
    var uses, results, dups := BuildIndex(r);
    if |uses| == 0 && |results| == 0 {
      return [];
    }
    var demoted := DemoteOrphans(r, uses);
    var dropped := DropUnanswered(r, results);
    var moved := ReorderResults(r);
    notes := dups + demoted + dropped + moved;
  }

  // ----- pruning and merging -----

  method TrimTrailingWhitespace(blocks: seq<Block>) returns (content: seq<Block>, changed: bool)
    ensures content == TrimLast(blocks) && (changed <==> content != blocks)
  {
    var i := |blocks| - 1;
    if i < 0 || blocks[i].kind != BlockText {
      return blocks, false;
    }
    var trimmed := TrimRight(blocks[i].text);
    if trimmed == blocks[i].text {
      assert blocks[i].(text := trimmed) == blocks[i];
      return blocks, false;
    }
    if trimmed == "" {
      return blocks[..i], true;
    }
    content, changed := blocks[i := blocks[i].(text := trimmed)], true;
    assert content[i].text != blocks[i].text;
  }

  method TrimLastMessage(r: Request) returns (notes: seq<PruneNote>)
    modifies r`messages
    ensures r.messages == TrimPrefill(old(r.messages))
    ensures notes == if EndsLoose(old(r.messages)) then [PrefillTrimmed] else []
  {
    notes := [];
    var n := |r.messages| - 1;
    if n >= 0 && r.messages[n].role == Assistant {
      var trimmed, changed := TrimTrailingWhitespace(r.messages[n].content);
      if changed {
        r.messages := r.messages[n := r.messages[n].(content := trimmed)];
        notes := [PrefillTrimmed];
      }
    }
  }

  method DropEmptyMessages(ms: seq<Message>) returns (kept: seq<Message>, notes: seq<PruneNote>)
    ensures (kept, notes) == DropEmpty(ms)
  {
    kept, notes := [], [];
    for i := 0 to |ms|
      invariant (kept, notes) == DropEmpty(ms[..i])
    {
      assert ms[..i + 1][..i] == ms[..i];
      var m := ms[i];
      if m.audioId == "" && IsEmptyContent(m.content) {
        notes := notes + [EmptyDropped(m.role, i)];
        continue;
      }
      kept := kept + [m];
    }
    assert ms[..|ms|] == ms;
  }

  method RepairEmpty(r: Request) returns (notes: seq<PruneNote>)
    modifies r`messages
    ensures (r.messages, notes) == PruneEmpty(old(r.messages))
  {
    var trimmed := TrimLastMessage(r);
    var kept, dropped := DropEmptyMessages(r.messages);
    notes := trimmed + dropped;
    if |dropped| > 0 {
      r.messages := kept;
    } else {
      DropEmptyIsSolid(r.messages);
    }
  }

  /** What merging still has to do: the last message kept may absorb more. */
  function Pending(merged: seq<Message>, rest: seq<Message>): seq<Message>
    requires merged != []
  {
    merged[..|merged| - 1] + Merge([merged[|merged| - 1]] + rest)
  }

  lemma PendingStep(merged: seq<Message>, m: Message, rest: seq<Message>)
    requires merged != []
    ensures var n := |merged| - 1;
      Pending(merged, [m] + rest) ==
        if Mergeable(merged[n], m) then Pending(merged[n := Join(merged[n], m)], rest)
        else Pending(merged + [m], rest)
  {
    var n := |merged| - 1;
    var front, last := merged[..n], merged[n];
    var ms := [last] + ([m] + rest);
    assert ms[0] == last && ms[1] == m && ms[2..] == rest && ms[1..] == [m] + rest;
    if Mergeable(last, m) {
      assert merged[n := Join(last, m)][..n] == front;
    } else {
      assert (merged + [m])[..n + 1] == front + [last];
      assert front + ([last] + Merge([m] + rest)) == front + [last] + Merge([m] + rest);
    }
  }

  lemma PendingNext(ms: seq<Message>, merged: seq<Message>, k: nat)
    requires merged != [] && k < |ms| && Merge(ms) == Pending(merged, ms[k..])
    ensures var n := |merged| - 1;
      Merge(ms) == Pending(if Mergeable(merged[n], ms[k]) then merged[n := Join(merged[n], ms[k])]
                           else merged + [ms[k]], ms[k + 1..])
  {
    HeadTail(ms, k);
    PendingStep(merged, ms[k], ms[k + 1..]);
  }

  lemma PendingDone(merged: seq<Message>)
    requires merged != []
    ensures Pending(merged, []) == merged
  {
    var n := |merged| - 1;
    assert [merged[n]] + [] == [merged[n]] && merged == merged[..n] + [merged[n]];
  }

  method MergeRuns(ms: seq<Message>) returns (merged: seq<Message>, count: nat)
    requires |ms| >= 2
    ensures merged == Merge(ms) && |merged| + count == |ms|
  {
    merged, count := [ms[0]], 0;
    assert ms == [ms[0]] + ms[1..];
    for k := 1 to |ms|
      invariant |merged| >= 1 && |merged| + count == k
      invariant Merge(ms) == Pending(merged, ms[k..])
    {
      var m, n := ms[k], |merged| - 1;
      PendingNext(ms, merged, k);
      var last := merged[n];
      if last.role == m.role && last.audioId == "" && m.audioId == "" {
        var joined := JoinContent(last, m);
        merged := merged[n := joined];
        count := count + 1;
        continue;
      }
      merged := merged + [m];
    }
    PendingDone(merged);
    assert ms[|ms|..] == [];
  }

  method MergeAdjacentRoles(r: Request) returns (count: nat)
    modifies r`messages
    ensures r.messages == Merge(old(r.messages))
    ensures count == |old(r.messages)| - |r.messages|
  {
    if |r.messages| < 2 {
      return 0;
    }
    var merged;
    merged, count := MergeRuns(r.messages);
    MergeFull(r.messages);
    if count > 0 {
      r.messages := merged;
    }
  }

  method JoinContent(last: Message, m: Message) returns (joined: Message)
    ensures joined == Join(last, m)
  {
    var content := last.content;
    if NeedsSeparator(last.content, m.content) {
      content := content + [TextBlock("\n\n")];
    }
    joined := last.(content := content + m.content);
  }

  /** All repairs, in the order in which each one relies on the previous. */
  method Sanitize(r: Request, hash: ToolDecl.Hasher) returns (report: Report)
    modifies r`messages, r`tools, r`toolChoice, r`decodeNotes
    ensures r.decodeNotes == [] && report.decode == old(r.decodeNotes)
    ensures old(r.messages) == [] ==>
      && r.messages == [] && r.tools == old(r.tools) && r.toolChoice == old(r.toolChoice)
      && report == Report(old(r.decodeNotes), [], [], [], 0)
    ensures old(r.messages) != [] ==>
      var g := ToolDecl.Govern(old(r.tools), hash);
      var renamed := ToolDecl.RenameMessages(old(r.messages), g.renames);
      && r.tools == g.kept && r.toolChoice == ToolDecl.RenameChoice(old(r.toolChoice), g.renames)
      && r.messages == Repaired(renamed) && Conserves(renamed, r.messages)
      && report.tools == g.notes && report.pairing == PairTools(renamed).notes
      && report.pruning == PruneEmpty(PairTools(renamed).messages).1
    ensures var ms := old(r.messages);
      Repairable(ms) && AnsweredByAssistant(ms, ResultIds(Flat(ms))) ==> Acceptable(r.messages)
  {
    var decode := r.decodeNotes;
    r.decodeNotes := [];
    ghost var ms, renames := r.messages, ToolDecl.Govern(r.tools, hash).renames;
    if |r.messages| == 0 {
      return Report(decode, [], [], [], 0);
    }
    var tools := ToolDecl.GovernToolDecls(r, hash);
    var pairing := RepairPairing(r);
    var pruning := RepairEmpty(r);
    var merged := MergeAdjacentRoles(r);
    report := Report(decode, tools, pairing, pruning, merged);
    RepairedConserves(ToolDecl.RenameMessages(ms, renames));
    if Repairable(ms) && AnsweredByAssistant(ms, ResultIds(Flat(ms))) {
      RenameKeepsRepairable(ms, renames);
      RepairedIsAcceptable(ToolDecl.RenameMessages(ms, renames));
    }
  }
}
