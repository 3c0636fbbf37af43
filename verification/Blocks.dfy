/** Sequence vocabulary for message histories: flattening, selection and distinctness. */
module Blocks {
  import opened Ir
  import opened Seqs

  /** Concatenates what `f` picks out of each block, in order. */
  function Select<T>(bs: seq<Block>, f: Block -> seq<T>): seq<T> {
    if bs == [] then [] else Select(bs[..|bs| - 1], f) + f(bs[|bs| - 1])
  }

  lemma {:induction false} SelectConcat<T>(a: seq<Block>, b: seq<Block>, f: Block -> seq<T>)
    ensures Select(a + b, f) == Select(a, f) + Select(b, f)
  {
    if b == [] {
      assert a + b == a;
    } else {
      assert (a + b)[..|a + b| - 1] == a + b[..|b| - 1];
      SelectConcat(a, b[..|b| - 1], f);
    }
  }

  lemma SelectOne<T>(b: Block, f: Block -> seq<T>)
    ensures Select([b], f) == f(b)
  {
    assert [b][..0] == [];
    assert Select([b], f) == Select([], f) + f(b);
  }

  /** Selecting from a selection is one selection. */
  lemma {:induction false} SelectFuse<T>(
      bs: seq<Block>, f: Block -> seq<Block>, g: Block -> seq<T>, h: Block -> seq<T>)
    requires forall b :: Select(f(b), g) == h(b)
    ensures Select(Select(bs, f), g) == Select(bs, h)
  {
    if bs == [] {
    } else {
      var front, last := bs[..|bs| - 1], bs[|bs| - 1];
      SelectFuse(front, f, g, h);
      SelectConcat(Select(front, f), f(last), g);
    }
  }

  lemma {:induction false} SelectSame<T>(bs: seq<Block>, f: Block -> seq<T>, g: Block -> seq<T>)
    requires forall i :: 0 <= i < |bs| ==> f(bs[i]) == g(bs[i])
    ensures Select(bs, f) == Select(bs, g)
  {
    if bs == [] {
    } else {
      SelectSame(bs[..|bs| - 1], f, g);
    }
  }

  /** Membership in a selection, in both directions. */
  lemma {:induction false} SelectMember<T>(bs: seq<Block>, f: Block -> seq<T>, x: T)
    ensures x in Select(bs, f) <==> exists i :: 0 <= i < |bs| && x in f(bs[i])
  {
    if bs == [] {
    } else {
      var front := bs[..|bs| - 1];
      SelectMember(front, f, x);
      if exists i :: 0 <= i < |front| && x in f(front[i]) {
        var i :| 0 <= i < |front| && x in f(front[i]);
        assert x in f(bs[i]);
      }
    }
  }

  function Flat(ms: seq<Message>): seq<Block> {
    if ms == [] then [] else Flat(ms[..|ms| - 1]) + ms[|ms| - 1].content
  }

  lemma {:induction false} FlatConcat(a: seq<Message>, b: seq<Message>)
    ensures Flat(a + b) == Flat(a) + Flat(b)
  {
    if b == [] {
      assert a + b == a;
    } else {
      assert (a + b)[..|a + b| - 1] == a + b[..|b| - 1];
      FlatConcat(a, b[..|b| - 1]);
    }
  }

  lemma FlatCons(ms: seq<Message>)
    requires ms != []
    ensures Flat(ms) == ms[0].content + Flat(ms[1..])
  {
    FlatConcat([ms[0]], ms[1..]);
    assert ms == [ms[0]] + ms[1..];
    assert [ms[0]][..0] == [];
    assert Flat([ms[0]]) == Flat([]) + ms[0].content;
  }

  predicate Distinct<T(==)>(s: seq<T>) {
    forall i, j :: 0 <= i < j < |s| ==> s[i] != s[j]
  }

  lemma DistinctConcat<T>(a: seq<T>, b: seq<T>)
    ensures Distinct(a + b) <==> Distinct(a) && Distinct(b) && forall x :: x in a ==> x !in b
  {
    var s := a + b;
    if Distinct(s) {
      forall i, j | 0 <= i < j < |a| ensures a[i] != a[j] { assert s[i] != s[j]; }
      forall i, j | 0 <= i < j < |b| ensures b[i] != b[j] { assert s[|a| + i] != s[|a| + j]; }
      forall x | x in a ensures x !in b {
        var i :| 0 <= i < |a| && a[i] == x;
        forall j | 0 <= j < |b| ensures b[j] != x { assert s[i] != s[|a| + j]; }
      }
    }
    if Distinct(a) && Distinct(b) && forall x :: x in a ==> x !in b {
      forall i, j | 0 <= i < j < |s| ensures s[i] != s[j] {
        if i < |a| { assert s[i] in a; } else { assert s[i] == b[i - |a|] && s[j] == b[j - |a|]; }
        if j >= |a| { assert s[j] in b; }
      }
    }
  }

  // ----- tool calls and their results -----

  predicate IsUse(b: Block) { b.kind == BlockToolUse && b.toolUse.Some? }

  predicate IsResult(b: Block) { b.kind == BlockToolResult && b.toolResult.Some? }

  function UseId(b: Block): string
    requires IsUse(b)
  { b.toolUse.value.id }

  function ResultId(b: Block): string
    requires IsResult(b)
  { b.toolResult.value.toolUseId }

  function UseOf(b: Block): seq<string> { if IsUse(b) then [UseId(b)] else [] }

  function ResultOf(b: Block): seq<string> { if IsResult(b) then [ResultId(b)] else [] }

  function NonResultOf(b: Block): seq<Block> { if IsResult(b) then [] else [b] }

  /** The ids of the calls, and of the answered calls, in order of appearance. */
  function UseIds(bs: seq<Block>): seq<string> { Select(bs, UseOf) }

  function ResultIds(bs: seq<Block>): seq<string> { Select(bs, ResultOf) }

  /** Everything but the tool results, in order of appearance. */
  function Skeleton(bs: seq<Block>): seq<Block> { Select(bs, NonResultOf) }

  lemma IdsConcat(a: seq<Block>, b: seq<Block>)
    ensures UseIds(a + b) == UseIds(a) + UseIds(b)
    ensures ResultIds(a + b) == ResultIds(a) + ResultIds(b)
    ensures Skeleton(a + b) == Skeleton(a) + Skeleton(b)
  {
    SelectConcat(a, b, UseOf);
    SelectConcat(a, b, ResultOf);
    SelectConcat(a, b, NonResultOf);
  }

  lemma IdsOne(b: Block)
    ensures UseIds([b]) == UseOf(b) && ResultIds([b]) == ResultOf(b) && Skeleton([b]) == NonResultOf(b)
  {
    SelectOne(b, UseOf);
    SelectOne(b, ResultOf);
    SelectOne(b, NonResultOf);
  }

  lemma NoResults(bs: seq<Block>)
    ensures ResultIds(bs) == [] <==> forall i :: 0 <= i < |bs| ==> !IsResult(bs[i])
    ensures ResultIds(bs) == [] ==> Skeleton(bs) == bs
  {
    if bs == [] {
    } else {
      NoResults(bs[..|bs| - 1]);
    }
  }
}
