/** History repair and request shaping together: what the repair of backend/ir/sanitize.go
    establishes, the shaping of backend/codec/shape.go does not undo. */
module ShapedHistory {
  import opened Ir
  import opened Seqs
  import opened Blocks
  import opened Pairing
  import opened History
  import opened ToolIds
  import Shape

  /** Calls and results are paired, under distinct ids, and the assistant makes the calls. */
  ghost predicate InOrder(ms: seq<Message>) { Canonical(ms) && CallsByAssistant(ms) }

  // ----- moving media out of results -----

  lemma {:induction false} UnpackedConcat(a: seq<Message>, b: seq<Message>)
    ensures Shape.UnpackedAll(a + b) == Shape.UnpackedAll(a) + Shape.UnpackedAll(b)
  {
    if b == [] {
      ConcatNothing(a);
      ConcatNothing(Shape.UnpackedAll(a));
    } else {
      ConcatFront(a, b);
      UnpackedConcat(a, b[..|b| - 1]);
      Associate(Shape.UnpackedAll(a), Shape.UnpackedAll(b[..|b| - 1]), Shape.Unpacked(b[|b| - 1]));
    }
  }

  lemma UnpackedFront(ms: seq<Message>)
    requires ms != []
    ensures Shape.UnpackedAll(ms) == Shape.Unpacked(ms[0]) + Shape.UnpackedAll(ms[1..])
  {
    HeadTail(ms, 0);
    UnpackedConcat([ms[0]], ms[1..]);
    assert [ms[0]][..0] == [];
    ConcatNothing(Shape.Unpacked(ms[0]));
  }

  lemma {:induction false} EmptiedOneByOne(bs: seq<Block>)
    ensures |Shape.EmptiedAll(bs)| == |bs|
    ensures forall i :: 0 <= i < |bs| ==> Shape.EmptiedAll(bs)[i] == Shape.Emptied(bs[i])
  {
    if bs == [] {
    } else {
      EmptiedOneByOne(bs[..|bs| - 1]);
    }
  }

  lemma EmptiedIds(bs: seq<Block>)
    ensures UseIds(Shape.EmptiedAll(bs)) == UseIds(bs) && ResultIds(Shape.EmptiedAll(bs)) == ResultIds(bs)
  {
    EmptiedOneByOne(bs);
    SelectPointwise(Shape.EmptiedAll(bs), bs, UseOf);
    SelectPointwise(Shape.EmptiedAll(bs), bs, ResultOf);
  }

  lemma {:induction false} SortedMedia(bs: seq<Block>)
    ensures forall i :: 0 <= i < |Shape.Sorted(bs, true)| ==> Shape.IsMedia(Shape.Sorted(bs, true)[i].kind)
  {
    if bs == [] {
    } else {
      SortedMedia(bs[..|bs| - 1]);
    }
  }

  lemma {:induction false} OnlyMedia(bs: seq<Block>)
    ensures forall i :: 0 <= i < |Shape.MediaOf(bs)| ==> Shape.IsMedia(Shape.MediaOf(bs)[i].kind)
    ensures Shape.MediaOf(bs) != [] ==> exists i :: 0 <= i < |bs| && IsResult(bs[i])
  {
    if bs == [] {
    } else {
      var b := bs[|bs| - 1];
      OnlyMedia(bs[..|bs| - 1]);
      if IsResult(b) { SortedMedia(b.toolResult.value.content); }
    }
  }

  lemma {:induction false} MediaCallNothing(bs: seq<Block>)
    requires forall i :: 0 <= i < |bs| ==> Shape.IsMedia(bs[i].kind)
    ensures UseIds(bs) == []
  {
    if bs == [] {
    } else {
      MediaCallNothing(bs[..|bs| - 1]);
    }
  }

  /** A turn that holds nothing but media neither calls nor answers. */
  lemma MediaTurn(media: seq<Block>, rest: seq<Message>)
    requires forall i :: 0 <= i < |media| ==> Shape.IsMedia(media[i].kind)
    ensures var turn := Message(User, media, "", "");
      (Paired(rest, []) ==> Paired([turn] + rest, [])) && Flat([turn] + rest) == media + Flat(rest) && UseIds(media) == []
  {
    var all := [Message(User, media, "", "")] + rest;
    assert all[1..] == rest;
    MediaCallNothing(media);
    FlatCons(all);
  }

  lemma UnpackedLeads(m: Message, owed: seq<string>)
    requires LeadsWith(m, owed)
    ensures LeadsWith(m.(content := Shape.EmptiedAll(m.content)), owed)
  {
    EmptiedOneByOne(m.content);
  }

  /** The first message with its media behind it, ahead of the rest. */
  lemma UnpackedPairs(m: Message, owed: seq<string>, rest: seq<Message>)
    requires LeadsWith(m, owed) && (UseIds(m.content) != [] ==> m.role == Assistant) && Paired(rest, UseIds(m.content))
    ensures Paired(Shape.Unpacked(m) + rest, owed)
    ensures UseIds(Flat(Shape.Unpacked(m) + rest)) == UseIds(m.content) + UseIds(Flat(rest))
  {
    var bare, media := m.(content := Shape.EmptiedAll(m.content)), Shape.MediaOf(m.content);
    var turn := if media == [] then [] else [Message(User, media, "", "")];
    OnlyMedia(m.content);
    EmptiedIds(m.content);
    UnpackedLeads(m, owed);
    if media == [] { ConcatNothing(rest); } else { MediaTurn(media, rest); IdsConcat(media, Flat(rest)); }
    var all := [bare] + (turn + rest);
    Associate([bare], turn, rest);
    assert all[1..] == turn + rest;
    FlatCons(all);
    IdsConcat(bare.content, Flat(turn + rest));
    ConcatNothing(UseIds(Flat(rest)));
  }

  lemma {:induction false} UnpackedStaysPaired(ms: seq<Message>, owed: seq<string>)
    requires Paired(ms, owed) && CallsByAssistant(ms)
    ensures Paired(Shape.UnpackedAll(ms), owed) && UseIds(Flat(Shape.UnpackedAll(ms))) == UseIds(Flat(ms))
  {
    if ms == [] {
    } else {
      UnpackedFront(ms);
      UnpackedStaysPaired(ms[1..], UseIds(ms[0].content));
      UnpackedPairs(ms[0], owed, Shape.UnpackedAll(ms[1..]));
      FlatCons(ms);
      IdsConcat(ms[0].content, Flat(ms[1..]));
    }
  }

  lemma {:induction false} UnpackedCallers(ms: seq<Message>)
    requires CallsByAssistant(ms)
    ensures CallsByAssistant(Shape.UnpackedAll(ms))
  {
    if ms == [] {
    } else {
      var front, m := ms[..|ms| - 1], ms[|ms| - 1];
      UnpackedCallers(front);
      EmptiedIds(m.content);
      OnlyMedia(m.content);
      MediaCallNothing(Shape.MediaOf(m.content));
      assert CallsByAssistant(Shape.Unpacked(m));
      CallersConcat(Shape.UnpackedAll(front), Shape.Unpacked(m));
    }
  }

  // ----- marks and ids -----

  lemma MarksKeepPlaces(a: seq<Block>, b: seq<Block>)
    requires Shape.OnlyMarksAll(a, b)
    ensures UseIds(a) == UseIds(b)
    ensures forall i :: 0 <= i < |a| ==> (IsResult(a[i]) <==> IsResult(b[i])) && (IsResult(a[i]) ==> ResultId(a[i]) == ResultId(b[i]))
  {
    Shape.SameUseIds(a, b);
    forall i | 0 <= i < |a|
      ensures (IsResult(a[i]) <==> IsResult(b[i])) && (IsResult(a[i]) ==> ResultId(a[i]) == ResultId(b[i]))
    {
      assert Shape.OnlyMarks(a[i], b[i]);
      Shape.OnlyMarksMeans(a[i], b[i]);
      if IsResult(a[i]) {
        var s, t := a[i].toolResult.value, b[i].toolResult.value;
        assert s.(content := []).toolUseId == s.toolUseId && t.(content := []).toolUseId == t.toolUseId;
      }
    }
  }

  lemma SameRole(a: Message, b: Message)
    requires a.(content := []) == b.(content := [])
    ensures a.role == b.role
  {
    assert a.(content := []).role == a.role && b.(content := []).role == b.role;
  }

  lemma {:induction false} MarksKeepPaired(a: seq<Message>, b: seq<Message>, owed: seq<string>)
    requires Shape.OnlyMarksIn(a, b) && Paired(b, owed)
    ensures Paired(a, owed)
  {
    if a == [] {
    } else {
      MarksKeepPlaces(a[0].content, b[0].content);
      SameRole(a[0], b[0]);
      MarksKeepPaired(a[1..], b[1..], UseIds(b[0].content));
    }
  }

  lemma MarksKeepOrder(a: seq<Message>, b: seq<Message>)
    requires Shape.OnlyMarksIn(a, b) && InOrder(b)
    ensures InOrder(a)
  {
    MarksKeepPaired(a, b, []);
    Shape.SameFlatIds(a, b);
    forall i | 0 <= i < |a| ensures UseIds(a[i].content) == UseIds(b[i].content) && a[i].role == b[i].role {
      MarksKeepPlaces(a[i].content, b[i].content);
      SameRole(a[i], b[i]);
    }
  }

  lemma IdsKeepOrder(ms: seq<Message>, caps: Shape.Caps, lib: Shape.Outside)
    requires InOrder(ms)
    ensures InOrder(Shape.WithinIds(ms, caps, lib))
  {
    ShapedIdsStayCanonical(ms, caps.maxToolIdLen, lib.shorten);
    var to := IdRenames(UseIds(Flat(ms)), caps.maxToolIdLen, lib.shorten);
    forall i | 0 <= i < |ms| ensures |UseIds(WithIds(ms[i].content, to))| == |UseIds(ms[i].content)| {
      IdsMapped(ms[i].content, to);
    }
  }

  // ----- the whole -----

  lemma MovedStaysInOrder(ms: seq<Message>, caps: Shape.Caps)
    requires InOrder(ms)
    ensures InOrder(Shape.MovedMedia(Shape.Spoken(ms), caps))
  {
    var spoken := Shape.Spoken(ms);
    if ms == [] { PlaceholderIsInOrder(); }
    UnpackedStaysPaired(spoken, []);
    UnpackedCallers(spoken);
  }

  lemma PlaceholderIsInOrder()
    ensures InOrder(Shape.Spoken([]))
  {
    var ms := Shape.Spoken([]);
    FlatCons(ms);
    IdsOne(ms[0].content[0]);
    assert ms[1..] == [];
    ConcatNothing(ms[0].content);
  }

  /** Whatever the protocol and whatever the history: as `ShapeRequest` leaves the messages, the
      calls of a paired history are still each answered, in call order and under distinct ids,
      at the head of the message behind them, though media have moved, marks have gone, and ids
      have been shortened. */
  lemma ShapingKeepsOrder(ms: seq<Message>, out: seq<Message>, caps: Shape.Caps, lib: Shape.Outside)
    requires InOrder(ms)
    requires Shape.OnlyMarksIn(out, Shape.WithinIds(Shape.MovedMedia(Shape.Spoken(ms), caps), caps, lib))
    ensures InOrder(out)
  {
    MovedStaysInOrder(ms, caps);
    IdsKeepOrder(Shape.MovedMedia(Shape.Spoken(ms), caps), caps, lib);
    MarksKeepOrder(out, Shape.WithinIds(Shape.MovedMedia(Shape.Spoken(ms), caps), caps, lib));
  }

  /** From the client's history to the upstream's: every repairable one whose answered calls
      come from the assistant arrives in order. */
  lemma RepairedThenShaped(ms: seq<Message>, out: seq<Message>, caps: Shape.Caps, lib: Shape.Outside)
    requires Repairable(ms) && AnsweredByAssistant(ms, ResultIds(Flat(ms)))
    requires Shape.OnlyMarksIn(out, Shape.WithinIds(Shape.MovedMedia(Shape.Spoken(Repaired(ms)), caps), caps, lib))
    ensures InOrder(out)
  {
    RepairedIsAcceptable(ms);
    ShapingKeepsOrder(Repaired(ms), out, caps, lib);
  }
}
