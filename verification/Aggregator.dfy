/** The aggregator as an object that every event updates in place, and the verdict on
    streams that broke off: backend/ir/aggregate.go. */
module Collector {
  import opened Ir
  import opened Aggregate

  datatype Unsafe = TruncatedCall(name: string, index: int) | OpenThinking(index: int)

  /** The label of a call: its id, else its name, else nothing but its index. */
  function ToolLabel(u: ToolUse): string { if u.id != "" then u.id else u.name }

  predicate IsTruncated(b: Block, valid: string -> bool) {
    b.kind == BlockToolUse && b.toolUse.Some? && !valid(b.toolUse.value.input)
  }

  predicate IsUnsigned(b: Block) {
    b.kind == BlockThinking && !(b.thinking.Some? && b.thinking.value.signature != "")
  }

  /** Calls whose arguments came in pieces and do not parse. */
  function Truncated(a: Agg, order: seq<int>, valid: string -> bool): seq<Unsafe> {
    if order == [] then []
    else
      var i := order[|order| - 1];
      Truncated(a, order[..|order| - 1], valid) +
      (if i in a.sawInput && i in a.blocks && IsTruncated(a.blocks[i], valid)
       then [TruncatedCall(ToolLabel(a.blocks[i].toolUse.value), i)] else [])
  }

  /** Reasoning that was still under way and carries no signature. */
  function Unsigned(a: Agg, order: seq<int>): seq<Unsafe> {
    if order == [] then []
    else
      var i := order[|order| - 1];
      Unsigned(a, order[..|order| - 1]) +
      (if i !in a.closed && i in a.blocks && IsUnsigned(a.blocks[i]) then [OpenThinking(i)] else [])
  }

  function UnsafeBlocks(a: Agg, proj: Projection, valid: string -> bool): seq<Unsafe> {
    var m := Materialize(a, proj);
    Truncated(m, m.order, valid) + Unsigned(m, m.order)
  }

  class Aggregator {
    var resp: Response
    var blocks: map<int, Block>
    var order: seq<int>
    var sawInput: set<int>
    var closed: set<int>
    var accs: map<int, Acc>
    var contentBytes: nat
    var overflow: Overflow
    const proj: Projection

    function Abs(): Agg
      reads this
    {
      Agg(resp, blocks, order, sawInput, closed, accs, Ledger(contentBytes, overflow))
    }

    constructor (proj: Projection)
      ensures Abs() == NEW_AGG && this.proj == proj
    {
      this.proj := proj;
      resp, blocks, order, sawInput, closed := EMPTY_RESPONSE, map[], [], {}, {};
      accs, contentBytes, overflow := map[], 0, Fits;
    }

    method Admit(n: nat) returns (ok: bool)
      modifies this`contentBytes, this`overflow
      ensures var ledger := old(Abs().ledger);
        Abs() == old(Abs()).(ledger := ledger.Admit(n)) && ok == ledger.Accepts(n)
    {
      if overflow != Fits {
        return false;
      }
      if contentBytes + n > MAX_CONTENT_BYTES {
        overflow := TooManyBytes;
        return false;
      }
      contentBytes := contentBytes + n;
      ok := true;
    }

    /** The block a delta belongs to, opened by the kind of the delta if need be. */
    method BlockFor(index: int, kind: BlockKind) returns (ok: bool)
      modifies this`blocks, this`order, this`overflow
      ensures var was, known := old(Abs()), index in old(blocks);
        if Full(known, was.order) then !ok && Abs() == was.(ledger := was.ledger.(overflow := TooManyBlocks))
        else ok && Abs() == was.(order := Ordered(was.order, known, index),
                                 blocks := if known then was.blocks else was.blocks[index := EmptyBlock(kind)])
    {
      if index in blocks {
        return true;
      }
      if |order| >= MAX_BLOCKS {
        overflow := TooManyBlocks;
        return false;
      }
      blocks := blocks[index := EmptyBlock(kind)];
      order := order + [index];
      ok := true;
    }

    method Seed(index: int, b: Block)
      requires index !in accs
      modifies this`accs, this`contentBytes, this`overflow
      ensures var was, n := old(Abs()), SeedAcc(b).Size();
        Abs() == was.(ledger := was.ledger.Admit(n),
                      accs := if was.ledger.Accepts(n) then was.accs[index := SeedAcc(b)] else was.accs)
    {
      var n := |b.text|;
      if b.thinking.Some? {
        n := n + |b.thinking.value.text| + |b.thinking.value.signature|;
      }
      if b.toolUse.Some? {
        n := n + |b.toolUse.value.input|;
      }
      if b.serverToolUse.Some? {
        n := n + |b.serverToolUse.value.input|;
      }
      var ok := Admit(n);
      if !ok {
        return;
      }
      var x := EMPTY_ACC.(text := b.text);
      if b.thinking.Some? {
        x := x.(thinking := b.thinking.value.text, sig := b.thinking.value.signature);
      }
      if b.toolUse.Some? {
        x := x.(input := x.input + b.toolUse.value.input);
      }
      if b.serverToolUse.Some? {
        x := x.(input := x.input + b.serverToolUse.value.input);
      }
      accs := accs[index := x];
      assert x == SeedAcc(b);
    }

    method AddBlockStart(index: int, b: Block)
      modifies this
      ensures Abs() == AddStart(old(Abs()), index, b)
    {
      if index !in blocks {
        if |order| >= MAX_BLOCKS {
          overflow := TooManyBlocks;
          return;
        }
        order := order + [index];
      }
      blocks := blocks[index := b];
      accs := accs - {index};
      Seed(index, b);
      assert (old(accs) - {index})[index := SeedAcc(b)] == old(accs)[index := SeedAcc(b)];
    }

    method AddText(ev: Event)
      requires IsDelta(ev)
      modifies this
      ensures Abs() == AddDelta(old(Abs()), ev)
    {
      var ok := Admit(|ev.text|);
      if !ok {
        return;
      }
      var i := ev.index;
      ok := BlockFor(i, DeltaKind(ev));
      if !ok {
        return;
      }
      blocks := blocks[i := Touch(blocks[i], ev)];
      accs := accs[i := Grow(if i in accs then accs[i] else EMPTY_ACC, ev)];
      if ev.ToolInput? && ev.text != "" {
        sawInput := sawInput + {i};
      }
    }

    method AddEvent(ev: Event)
      modifies this
      ensures Abs() == Add(old(Abs()), ev)
    {
      match ev
      case BlockStart(index, block) =>
        AddBlockStart(index, StartedBlock(block));
      case BlockStop(index) =>
        closed := closed + {index};
      case CitationDelta(index, cs) =>
        if index in blocks {
          blocks := blocks[index := blocks[index].(citations := Dedupe(blocks[index].citations + cs))];
        }
      case TextDelta(_, _) =>
        AddText(ev);
      case ThinkingDelta(_, _) =>
        AddText(ev);
      case SigDelta(_, _, _) =>
        AddText(ev);
      case ToolInput(_, _) =>
        AddText(ev);
      case _ =>
        resp := Meta(resp, ev);
    }

    method MaterializeBlocks()
      modifies this`blocks
      ensures Abs() == Materialize(old(Abs()), proj)
    {
      ghost var was := Abs();
      var todo: set<int> := accs.Keys;
      while todo != {}
        invariant todo <= accs.Keys && blocks.Keys == was.blocks.Keys
        invariant Abs() == was.(blocks := blocks)
        invariant forall i :: i in blocks ==> blocks[i] == if i in todo then was.blocks[i] else FilledAt(was, i, proj)
        decreases todo
      {
        var i := Pick(todo);
        todo := todo - {i};
        if i !in blocks {
          continue;
        }
        blocks := blocks[i := Fill(blocks[i], accs[i], proj)];
      }
    }

    method IncompleteTools(valid: string -> bool) returns (out: seq<Unsafe>)
      modifies this`blocks
      ensures Abs() == Materialize(old(Abs()), proj) && out == Truncated(Abs(), order, valid)
    {
      MaterializeBlocks();
      out := [];
      for k := 0 to |order|
        invariant out == Truncated(Abs(), order[..k], valid)
      {
        assert order[..k + 1][..k] == order[..k];
        var i := order[k];
        if i !in sawInput {
          continue;
        }
        if i !in blocks || blocks[i].kind != BlockToolUse || blocks[i].toolUse.None? {
          continue;
        }
        if valid(blocks[i].toolUse.value.input) {
          continue;
        }
        out := out + [TruncatedCall(ToolLabel(blocks[i].toolUse.value), i)];
      }
      assert order[..|order|] == order;
    }

    method UnsafeToClose(valid: string -> bool) returns (out: seq<Unsafe>)
      modifies this`blocks
      ensures Abs() == Materialize(old(Abs()), proj) && out == UnsafeBlocks(old(Abs()), proj, valid)
    {
      MaterializeBlocks();
      MaterializeIsIdempotent(old(Abs()), proj);
      out := IncompleteTools(valid);
      ghost var truncated := out;
      for k := 0 to |order|
        invariant out == truncated + Unsigned(Abs(), order[..k])
      {
        assert order[..k + 1][..k] == order[..k];
        var i := order[k];
        if i in closed || i !in blocks || blocks[i].kind != BlockThinking {
          continue;
        }
        if blocks[i].thinking.Some? && blocks[i].thinking.value.signature != "" {
          continue;
        }
        out := out + [OpenThinking(i)];
      }
      assert order[..|order|] == order;
    }

    method HasOpenBlocks() returns (found: bool)
      ensures found <==> exists i :: i in order && i !in closed
    {
      for k := 0 to |order|
        invariant forall j :: 0 <= j < k ==> order[j] in closed
      {
        if order[k] !in closed {
          var i := order[k];
          assert i in order && i !in closed;
          return true;
        }
      }
      found := false;
    }

    method BuildResponse() returns (out: Response)
      modifies this`blocks
      ensures Abs() == Materialize(old(Abs()), proj) && out == ResponseOf(old(Abs()), proj)
    {
      MaterializeBlocks();
      var content: seq<Block> := [];
      var hasToolUse := false;
      for k := 0 to |order|
        invariant content == Collect(blocks, order[..k])
        invariant hasToolUse == HasToolUse(content)
      {
        assert order[..k + 1][..k] == order[..k];
        if order[k] in blocks {
          var b := blocks[order[k]];
          ghost var before := content;
          content := content + [b];
          assert content[|before|] == b;
          if b.kind == BlockToolUse {
            hasToolUse := true;
          } else if hasToolUse {
            ghost var j :| 0 <= j < |before| && before[j].kind == BlockToolUse;
            assert content[j] == before[j];
          }
        }
      }
      assert order[..|order|] == order;
      out := resp.(content := content);
      if hasToolUse && out.stopReason != StopContentFilter {
        out := out.(stopReason := StopToolUse);
      }
    }
  }
}
