/** What history repair reports: the notes of `pairTools` in backend/ir/sanitize.go, counted
    against the history they were taken from. */
module RepairNotes {
  import opened Ir
  import opened Seqs
  import opened Blocks
  import opened Pairing
  import opened Conservation
  import opened History

  function Count<T(==)>(s: seq<T>, x: T): nat {
    if s == [] then 0 else Count(s[..|s| - 1], x) + if s[|s| - 1] == x then 1 else 0
  }

  lemma {:induction false} CountConcat<T>(a: seq<T>, b: seq<T>, x: T)
    ensures Count(a + b, x) == Count(a, x) + Count(b, x)
  {
    if b == [] {
      ConcatNothing(a);
    } else {
      ConcatFront(a, b);
      CountConcat(a, b[..|b| - 1], x);
    }
  }

  lemma CountOne<T>(y: T, x: T)
    ensures Count([y], x) == if y == x then 1 else 0
  {
    assert [y][..0] == [];
    assert Count([y][..0], x) == 0;
  }

  lemma {:induction false} CountMember<T>(s: seq<T>, x: T)
    ensures Count(s, x) > 0 <==> x in s
  {
    if s == [] {
    } else {
      FrontLast(s);
      CountMember(s[..|s| - 1], x);
    }
  }

  function Extra(n: nat): nat { if n == 0 then 0 else n - 1 }

  function Named(n: nat, id: string): nat { if id == "" then 0 else n }

  // ----- calls that share an id -----

  ghost predicate DupsCounted(ix: Index, seen: seq<Block>) {
    && ix.uses.Keys == NonEmpty(UseIds(seen))
    && forall note :: Count(ix.dups, note) ==
         if note.DuplicateUse? then Named(Extra(Count(UseIds(seen), note.id)), note.id) else 0
  }

  lemma DupsStep(ix: Index, seen: seq<Block>, b: Block, site: Site)
    requires DupsCounted(ix, seen)
    ensures DupsCounted(IndexBlock(ix, b, site), seen + [b])
  {
    IdsAppend(seen, b);
    if IsUse(b) {
      var id := UseId(b);
      IdsMore(UseIds(seen), id);
      CountMember(UseIds(seen), id);
      forall note | true
        ensures Count(IndexBlock(ix, b, site).dups, note) ==
          if note.DuplicateUse? then Named(Extra(Count(UseIds(seen + [b]), note.id)), note.id) else 0
      {
        CountConcat(ix.dups, [DuplicateUse(id)], note);
        CountOne(DuplicateUse(id), note);
        if note.DuplicateUse? {
          CountConcat(UseIds(seen), [id], note.id);
          CountOne(id, note.id);
        }
      }
    }
  }

  lemma {:induction false} DupsOfBlocks(ix: Index, seen: seq<Block>, bs: seq<Block>, mi: nat, n: nat)
    requires n <= |bs| && DupsCounted(ix, seen)
    ensures DupsCounted(IndexBlocks(ix, bs, mi, n), seen + bs[..n])
  {
    if n == 0 {
      ConcatNothing(seen);
    } else {
      DupsOfBlocks(ix, seen, bs, mi, n - 1);
      DupsStep(IndexBlocks(ix, bs, mi, n - 1), seen + bs[..n - 1], bs[n - 1], Site(mi, n - 1));
      OneMore(bs, n - 1);
      Associate(seen, bs[..n - 1], [bs[n - 1]]);
    }
  }

  lemma {:induction false} DupsOfMessages(ms: seq<Message>, n: nat)
    requires n <= |ms|
    ensures DupsCounted(IndexMessages(ms, n), Flat(ms[..n]))
  {
    if n == 0 {
    } else {
      DupsOfMessages(ms, n - 1);
      assert ms[..n][..n - 1] == ms[..n - 1];
      var bs := ms[n - 1].content;
      assert bs[..|bs|] == bs;
      DupsOfBlocks(IndexMessages(ms, n - 1), Flat(ms[..n - 1]), bs, n - 1, |bs|);
    }
  }

  // ----- results told as text -----

  /** How often a result is noted as demoted. */
  function DemotionsNoted(note: Note, answers: seq<string>, uses: set<string>, kept: set<string>): nat {
    match note
    case OrphanDemoted(id) => if id in uses then 0 else Count(answers, id)
    case DuplicateDemoted(id) =>
      if id !in uses then 0 else if id in kept then Count(answers, id) else Extra(Count(answers, id))
    case _ => 0
  }

  lemma DemotionStep(b: Block, ids: seq<string>, uses: set<string>, kept: set<string>, note: Note)
    ensures var last := DemoteBlock(b, uses, kept);
      Count(last.notes, note) + DemotionsNoted(note, ids, uses, last.kept)
      == DemotionsNoted(note, ids + ResultOf(b), uses, kept)
  {
    if IsResult(b) {
      var id := ResultId(b);
      if note.OrphanDemoted? || note.DuplicateDemoted? {
        CountConcat(ids, [id], note.id);
        CountOne(id, note.id);
      }
      CountOne(OrphanDemoted(id), note);
      CountOne(DuplicateDemoted(id), note);
    } else {
      ConcatNothing(ids);
    }
  }

  lemma {:induction false} DemotionsCounted(bs: seq<Block>, uses: set<string>, kept: set<string>, note: Note)
    ensures Count(DemoteBlocks(bs, uses, kept).notes, note) == DemotionsNoted(note, ResultIds(bs), uses, kept)
  {
    if bs == [] {
    } else {
      var n := |bs| - 1;
      var last := DemoteBlock(bs[n], uses, kept);
      var front := DemoteBlocks(bs[..n], uses, last.kept);
      DemotionsCounted(bs[..n], uses, last.kept, note);
      CountConcat(last.notes, front.notes, note);
      DemotionStep(bs[n], ResultIds(bs[..n]), uses, kept, note);
    }
  }

  // ----- calls and messages dropped -----

  predicate OnlyDangling(bs: seq<Block>, answers: seq<string>) {
    forall i :: 0 <= i < |bs| ==> IsUse(bs[i]) && UseId(bs[i]) !in answers
  }

  /** A message that holds nothing but calls nobody answers. */
  predicate Hollow(m: Message, answers: seq<string>) {
    m.content != [] && OnlyDangling(m.content, answers)
  }

  function HollowRoles(ms: seq<Message>, answers: seq<string>): seq<Role> {
    if ms == [] then []
    else HollowRoles(ms[..|ms| - 1], answers)
         + if Hollow(ms[|ms| - 1], answers) then [ms[|ms| - 1].role] else []
  }

  function DropsNoted(note: Note, calls: seq<string>, hollow: seq<Role>, answers: seq<string>): nat {
    match note
    case UseDropped(id) => if id in answers then 0 else Count(calls, id)
    case MessageDropped(role) => Count(hollow, role)
    case _ => 0
  }

  lemma {:induction false} DroppedCalls(bs: seq<Block>, results: map<string, nat>, answers: seq<string>, note: Note)
    requires Counts(results, answers)
    ensures Count(Select(bs, DropNotesOf(results)), note) == DropsNoted(note, UseIds(bs), [], answers)
  {
    if bs == [] {
    } else {
      var front, b := bs[..|bs| - 1], bs[|bs| - 1];
      DroppedCalls(front, results, answers, note);
      DroppedCall(b, results, answers, note, UseIds(front));
      CountConcat(Select(front, DropNotesOf(results)), DropNotesOf(results)(b), note);
    }
  }

  lemma {:induction false} NothingIsLeft(bs: seq<Block>, results: map<string, nat>, answers: seq<string>)
    requires Counts(results, answers)
    ensures Select(bs, AnsweredOf(results)) == [] <==> OnlyDangling(bs, answers)
  {
    if bs == [] {
    } else {
      var front, b := bs[..|bs| - 1], bs[|bs| - 1];
      NothingIsLeft(front, results, answers);
      if IsUse(b) { assert UseId(b) in results <==> UseId(b) in answers; }
      assert OnlyDangling(bs, answers) <==> OnlyDangling(front, answers) && IsUse(b) && UseId(b) !in answers;
    }
  }

  lemma DroppedCall(b: Block, results: map<string, nat>, answers: seq<string>, note: Note, calls: seq<string>)
    requires Counts(results, answers)
    ensures Unanswered(b, results) <==> IsUse(b) && UseId(b) !in answers
    ensures DropsNoted(note, calls, [], answers) + Count(DropNotesOf(results)(b), note)
         == DropsNoted(note, calls + UseOf(b), [], answers)
  {
    if IsUse(b) {
      assert UseId(b) in results <==> UseId(b) in answers;
      CountOne(UseDropped(UseId(b)), note);
      if note.UseDropped? {
        CountConcat(calls, [UseId(b)], note.id);
        CountOne(UseId(b), note.id);
      }
    } else {
      ConcatNothing(calls);
    }
  }

  lemma {:induction false} DropsCounted(ms: seq<Message>, results: map<string, nat>, answers: seq<string>, note: Note)
    requires Counts(results, answers)
    ensures Count(DropMessages(ms, results).notes, note)
         == DropsNoted(note, UseIds(Flat(ms)), HollowRoles(ms, answers), answers)
  {
    if ms == [] {
    } else {
      var front, m := ms[..|ms| - 1], ms[|ms| - 1];
      DropsCounted(front, results, answers, note);
      DroppedCalls(m.content, results, answers, note);
      DropStep(DropMessages(front, results), m, results, answers, note);
      IdsConcat(Flat(front), m.content);
      if note.UseDropped? { CountConcat(UseIds(Flat(front)), UseIds(m.content), note.id); }
      if note.MessageDropped? {
        CountConcat(HollowRoles(front, answers), [m.role], note.role);
        CountOne(m.role, note.role);
        ConcatNothing(HollowRoles(front, answers));
      }
    }
  }

  lemma DropStep(front: Dropped, m: Message, results: map<string, nat>, answers: seq<string>, note: Note)
    requires Counts(results, answers)
    ensures Count(DropOne(front, m, results).notes, note)
         == Count(front.notes, note) + DropsNoted(note, UseIds(m.content), [], answers)
            + if Hollow(m, answers) && note == MessageDropped(m.role) then 1 else 0
  {
    var mine := Select(m.content, DropNotesOf(results));
    DroppedCalls(m.content, results, answers, note);
    NothingIsLeft(m.content, results, answers);
    CountConcat(front.notes, mine, note);
    CountConcat(front.notes + mine, [MessageDropped(m.role)], note);
    CountOne(MessageDropped(m.role), note);
  }

  // ----- everything that is reported -----

  lemma {:induction false} HollowAfterDemotion(
      ms: seq<Message>, uses: set<string>, kept: set<string>, answers: seq<string>)
    ensures HollowRoles(DemoteMessages(ms, uses, kept).out, answers) == HollowRoles(ms, answers)
  {
    if ms == [] {
    } else {
      var m := ms[|ms| - 1];
      var last := DemoteBlocks(m.content, uses, kept);
      HollowAfterDemotion(ms[..|ms| - 1], uses, last.kept, answers);
      DemoteInPlace(m.content, uses, kept);
      assert Hollow(m.(content := last.out), answers) <==> Hollow(m, answers) by {
        forall i | 0 <= i < |m.content|
          ensures last.out[i] == m.content[i] || (!IsUse(last.out[i]) && !IsUse(m.content[i]))
        {}
      }
    }
  }

  /** How often a note is due, read off the history alone. */
  function Due(note: Note, ms: seq<Message>): nat {
    var calls, answers := UseIds(Flat(ms)), ResultIds(Flat(ms));
    match note
    case DuplicateUse(id) => Named(Extra(Count(calls, id)), id)
    case OrphanDemoted(id) => if id != "" && id in calls then 0 else Count(answers, id)
    case DuplicateDemoted(id) => if id != "" && id in calls then Extra(Count(answers, id)) else 0
    case UseDropped(id) => if id in answers then 0 else Count(calls, id)
    case MessageDropped(role) => Count(HollowRoles(ms, answers), role)
    case ResultsMoved(ids) => 0
  }

  lemma CountFour<T>(a: seq<T>, b: seq<T>, c: seq<T>, d: seq<T>, x: T)
    ensures Count(a + b + c + d, x) == Count(a, x) + Count(b, x) + Count(c, x) + Count(d, x)
  {
    CountConcat(a, b, x);
    CountConcat(a + b, c, x);
    CountConcat(a + b + c, d, x);
  }

  /** Pairing reports each of its changes once: every spare call, every result told as text, every
      call and every message dropped.  That results moved is said once at most. */
  lemma EveryChangeIsNoted(ms: seq<Message>, note: Note)
    requires IndexFinds(ms)
    ensures if note.ResultsMoved? then Count(PairTools(ms).notes, note) <= 1
            else Count(PairTools(ms).notes, note) == Due(note, ms)
  {
    var ix, moved := IndexTools(ms), Reorder(DroppedOf(ms).kept);
    IndexFindsIsTheGuard(ms);
    CountFour(ix.dups, DemotedOf(ms).notes, DroppedOf(ms).notes, moved.notes, note);
    DupsNoted(ms, note);
    DemotionsOf(ms, note);
    DropsOf(ms, note);
    CountOne(ResultsMoved(Pulled(Flat(DroppedOf(ms).kept), IndexTools(DroppedOf(ms).kept).uses.Keys).Keys), note);
  }

  lemma DupsNoted(ms: seq<Message>, note: Note)
    ensures Count(IndexTools(ms).dups, note)
         == if note.DuplicateUse? then Named(Extra(Count(UseIds(Flat(ms)), note.id)), note.id) else 0
  {
    DupsOfMessages(ms, |ms|);
    assert ms[..|ms|] == ms;
  }

  lemma DemotionsOf(ms: seq<Message>, note: Note)
    ensures Count(DemotedOf(ms).notes, note)
         == if note.OrphanDemoted? || note.DuplicateDemoted? then Due(note, ms) else 0
  {
    var uses := IndexTools(ms).uses.Keys;
    assert uses == NonEmpty(UseIds(Flat(ms))) by { IndexToolsRecords(ms); }
    DemoteFlat(ms, uses, {});
    DemotionsCounted(Flat(ms), uses, {}, note);
  }

  lemma DropsOf(ms: seq<Message>, note: Note)
    ensures Count(DroppedOf(ms).notes, note)
         == if note.UseDropped? || note.MessageDropped? then Due(note, ms) else 0
  {
    var ix, answers := IndexTools(ms), ResultIds(Flat(ms));
    assert Counts(ix.results, answers) by { IndexToolsRecords(ms); }
    DemoteFlat(ms, ix.uses.Keys, {});
    DemoteIds(Flat(ms), ix.uses.Keys, {});
    HollowAfterDemotion(ms, ix.uses.Keys, {}, answers);
    DropsCounted(DemotedOf(ms).out, ix.results, answers, note);
  }

  // ----- results that moved -----

  /** The same blocks in the same places, as far as kinds, tool ids and roles tell. */
  predicate SameLayout(a: seq<Message>, b: seq<Message>) {
    && |a| == |b|
    && forall i :: 0 <= i < |a| ==> a[i].role == b[i].role && SameShapes(a[i].content, b[i].content)
  }

  predicate SameShapes(a: seq<Block>, b: seq<Block>) {
    |a| == |b| && forall k :: 0 <= k < |a| ==> a[k].kind == b[k].kind && ToolIdOf(a[k]) == ToolIdOf(b[k])
  }

  function ToolIdOf(b: Block): Option<string> {
    if b.toolUse.Some? then Some(b.toolUse.value.id)
    else if b.toolResult.Some? then Some(b.toolResult.value.toolUseId)
    else None
  }

  lemma {:induction false} ShapesTell(a: seq<Block>, b: seq<Block>)
    ensures Select(a, ShapeOf) == Select(b, ShapeOf) <==> SameShapes(a, b)
    ensures |Select(a, ShapeOf)| == |a|
  {
    if a == [] || b == [] {
      ShapesCounted(a);
      ShapesCounted(b);
    } else {
      var x, y := a[..|a| - 1], b[..|b| - 1];
      ShapesTell(x, y);
      ShapesCounted(b);
      LastTells(Select(x, ShapeOf), ShapeOf(a[|a| - 1])[0], Select(y, ShapeOf), ShapeOf(b[|b| - 1])[0]);
      if SameShapes(a, b) { assert SameShapes(x, y); }
    }
  }

  lemma {:induction false} ShapesCounted(a: seq<Block>)
    ensures |Select(a, ShapeOf)| == |a|
  {
    if a == [] {
    } else {
      ShapesCounted(a[..|a| - 1]);
    }
  }

  lemma LastTells<T>(a: seq<T>, x: T, b: seq<T>, y: T)
    ensures a + [x] == b + [y] <==> a == b && x == y
  {
    if a + [x] == b + [y] {
      assert (a + [x])[|a|] == x && (b + [y])[|b|] == y;
      assert (a + [x])[..|a|] == a && (b + [y])[..|b|] == b;
    }
  }

  lemma LayoutMore(x: seq<Message>, m: Message, y: seq<Message>, n: Message)
    ensures SameLayout(x + [m], y + [n])
       <==> SameLayout(x, y) && m.role == n.role && SameShapes(m.content, n.content)
  {
    var a, b := x + [m], y + [n];
    if SameLayout(a, b) {
      forall i | 0 <= i < |x| ensures x[i].role == y[i].role && SameShapes(x[i].content, y[i].content) {
        assert a[i] == x[i] && b[i] == y[i];
      }
      assert a[|x|] == m && b[|y|] == n;
    }
  }

  lemma {:induction false} SnapshotTells(a: seq<Message>, b: seq<Message>)
    ensures Snapshot(a) == Snapshot(b) <==> SameLayout(a, b)
  {
    SnapshotCounted(a);
    SnapshotCounted(b);
    if a == [] || b == [] {
    } else {
      var x, y, m, n := a[..|a| - 1], b[..|b| - 1], a[|a| - 1], b[|b| - 1];
      SnapshotTells(x, y);
      LastTells(Snapshot(x), (m.role, Select(m.content, ShapeOf)), Snapshot(y), (n.role, Select(n.content, ShapeOf)));
      ShapesTell(m.content, n.content);
      FrontLast(a);
      FrontLast(b);
      LayoutMore(x, m, y, n);
    }
  }

  lemma {:induction false} SnapshotCounted(a: seq<Message>)
    ensures |Snapshot(a)| == |a|
  {
    if a == [] {
    } else {
      SnapshotCounted(a[..|a| - 1]);
    }
  }

  /** That results moved is noted exactly when the layout changed, and names the results there are. */
  lemma MovesAreNoted(ms: seq<Message>, note: Note) returns (d: seq<Message>)
    requires IndexFinds(ms) && note.ResultsMoved?
    ensures Conserved(ms, PairTools(ms).messages, d)
    ensures note in PairTools(ms).notes
       <==> && !SameLayout(Held(d, ResultIds(Flat(ms))), PairTools(ms).messages)
            && forall id :: id in note.ids <==> id in ResultIds(Flat(PairTools(ms).messages))
  {
    d := PairToolsTells(ms);
    var e := DroppedOf(ms).kept;
    var out := Reorder(e).messages;
    TouchedState(ms);
    OnlyMovesAreMoves(ms, note);
    SnapshotTells(e, out);
    DroppedState(ms);
    MovesOf(e);
    NamesTheResults(Reorder(e).notes, Snapshot(e) != Snapshot(out), ResultIds(Flat(out)), note);
  }

  lemma NamesTheResults(notes: seq<Note>, changed: bool, ids: seq<string>, note: Note)
    requires note.ResultsMoved?
    requires notes == if changed then [ResultsMoved(set id | id in ids)] else []
    ensures note in notes <==> changed && forall id :: id in note.ids <==> id in ids
  {
    if forall id :: id in note.ids <==> id in ids { assert note.ids == set id | id in ids; }
  }

  lemma OnlyMovesAreMoves(ms: seq<Message>, note: Note)
    requires IndexFinds(ms) && note.ResultsMoved?
    ensures note in PairTools(ms).notes <==> note in Reorder(DroppedOf(ms).kept).notes
  {
    var moved := Reorder(DroppedOf(ms).kept);
    IndexFindsIsTheGuard(ms);
    CountFour(IndexTools(ms).dups, DemotedOf(ms).notes, DroppedOf(ms).notes, moved.notes, note);
    DupsNoted(ms, note);
    DemotionsOf(ms, note);
    DropsOf(ms, note);
    CountMember(PairTools(ms).notes, note);
    CountMember(moved.notes, note);
  }

  lemma EveryCallIsListed(e: seq<Message>)
    ensures var uses := IndexTools(e).uses;
      forall id :: id in AllCalls(e, uses, |e|) <==> id in uses.Keys
  {
    IndexToolsRecords(e);
    AllCallsRecords(e, IndexTools(e).uses, |e|);
  }

  lemma EveryCallIsPulled(e: seq<Message>)
    requires NonEmpty(UseIds(Flat(e))) == NonEmpty(ResultIds(Flat(e)))
    ensures var uses := IndexTools(e).uses.Keys; Pulled(Flat(e), uses).Keys == uses
  {
    var uses := IndexTools(e).uses.Keys;
    assert uses == NonEmpty(UseIds(Flat(e))) by { IndexToolsRecords(e); }
    PulledRecords(Flat(e), uses);
  }

  lemma PulledAreTheResults(e: seq<Message>)
    requires AllAnswer(e) && NonEmpty(UseIds(Flat(e))) == NonEmpty(ResultIds(Flat(e)))
    ensures var uses := IndexTools(e).uses.Keys;
      Pulled(Flat(e), uses).Keys == uses == set id | id in ResultIds(Flat(Reorder(e).messages))
  {
    EveryCallIsListed(e);
    EveryCallIsPulled(e);
    var ids := ResultIds(Flat(Reorder(e).messages));
    assert ids == AllCalls(e, IndexTools(e).uses, |e|) by { ReorderConserves(e); }
  }

  lemma MovesOf(e: seq<Message>)
    requires AllAnswer(e) && NonEmpty(UseIds(Flat(e))) == NonEmpty(ResultIds(Flat(e)))
    ensures var out := Reorder(e).messages;
      Reorder(e).notes == if Snapshot(e) != Snapshot(out) then [ResultsMoved(set id | id in ResultIds(Flat(out)))]
                          else []
  {
    PulledAreTheResults(e);
  }

  // ----- pruning -----

  lemma {:induction false} DropsOfEmptyNoted(ms: seq<Message>, note: PruneNote)
    ensures note in DropEmpty(ms).1
       <==> note.EmptyDropped? && note.index < |ms| && ms[note.index].role == note.role
            && ms[note.index].audioId == "" && IsEmptyContent(ms[note.index].content)
  {
    if ms == [] {
    } else {
      DropsOfEmptyNoted(ms[..|ms| - 1], note);
    }
  }

  /** Pruning reports what it did: that the last text was trimmed, and each empty message by its
      role and its place. */
  lemma PruningIsNoted(ms: seq<Message>, note: PruneNote)
    ensures var trimmed := TrimPrefill(ms);
      note in PruneEmpty(ms).1 <==>
        match note
        case PrefillTrimmed => trimmed != ms
        case EmptyDropped(role, i) =>
          i < |ms| && trimmed[i].role == role && trimmed[i].audioId == "" && IsEmptyContent(trimmed[i].content)
  {
    DropsOfEmptyNoted(TrimPrefill(ms), note);
    if EndsLoose(ms) {
      var n := |ms| - 1;
      assert TrimPrefill(ms)[n].content != ms[n].content;
    }
  }
}
