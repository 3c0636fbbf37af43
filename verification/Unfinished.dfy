/** When a stream that broke off must not be closed as if it were complete, read off the events
    alone: `IncompleteTools`, `UnsafeToClose` and `HasOpenBlocks` of backend/ir/aggregate.go. */
module Unfinished {
  import opened Ir
  import opened Seqs
  import opened Aggregate
  import opened Collector
  import opened Reported
  import opened Contents

  predicate Stopped(evs: seq<Event>, i: int) {
    exists k :: 0 <= k < |evs| && evs[k].BlockStop? && evs[k].index == i
  }

  /** Arguments came in pieces for block `i`, whatever it has become since. */
  predicate SawPieces(evs: seq<Event>, i: int) {
    exists k :: 0 <= k < |evs| && evs[k].ToolInput? && evs[k].index == i && evs[k].text != ""
  }

  lemma SeenMore(evs: seq<Event>, ev: Event, i: int)
    ensures Stopped(evs + [ev], i) <==> Stopped(evs, i) || (ev.BlockStop? && ev.index == i)
    ensures SawPieces(evs + [ev], i)
       <==> SawPieces(evs, i) || (ev.ToolInput? && ev.index == i && ev.text != "")
  {
    var more := evs + [ev];
    assert more[|evs|] == ev && forall k :: 0 <= k < |evs| ==> more[k] == evs[k];
    if Stopped(evs, i) {
      var k :| 0 <= k < |evs| && evs[k].BlockStop? && evs[k].index == i;
      assert more[k] == evs[k];
    }
    if SawPieces(evs, i) {
      var k :| 0 <= k < |evs| && evs[k].ToolInput? && evs[k].index == i && evs[k].text != "";
      assert more[k] == evs[k];
    }
  }

  ghost predicate Watched(a: Agg, evs: seq<Event>) {
    forall i :: (i in a.closed <==> Stopped(evs, i)) && (i in a.sawInput <==> SawPieces(evs, i))
  }

  lemma WatchedMore(a: Agg, evs: seq<Event>, ev: Event)
    requires Watched(a, evs) && Add(a, ev).ledger.overflow == Fits
    ensures Watched(Add(a, ev), evs + [ev])
  {
    forall i | true
      ensures i in Add(a, ev).closed <==> Stopped(evs + [ev], i)
      ensures i in Add(a, ev).sawInput <==> SawPieces(evs + [ev], i)
    {
      SeenMore(evs, ev, i);
    }
  }

  lemma {:induction false} RunWatched(ops: seq<Op>, proj: Projection)
    requires Run(ops, proj).ledger.overflow == Fits
    ensures Watched(Run(ops, proj), Fed(ops))
  {
    if ops == [] {
    } else {
      var front, op := ops[..|ops| - 1], ops[|ops| - 1];
      if op.Feed? {
        OverflowStays(Run(front, proj), op.ev);
        RunWatched(front, proj);
        WatchedMore(Run(front, proj), Fed(front), op.ev);
      } else {
        RunWatched(front, proj);
      }
    }
  }

  lemma {:induction false} NoSignatureHeard(since: seq<Event>)
    requires !Thinks(since)
    ensures AllBrought(since, SignatureChannel) == ""
  {
    if since == [] {
    } else {
      var front := since[..|since| - 1];
      forall k | 0 <= k < |front| ensures !front[k].ThinkingDelta? && !front[k].SigDelta? {
        assert front[k] == since[k];
      }
      NoSignatureHeard(front);
    }
  }

  lemma {:induction false} TruncatedMembers(a: Agg, order: seq<int>, valid: string -> bool, x: Unsafe)
    ensures x in Truncated(a, order, valid)
      <==> x.TruncatedCall? && x.index in order && x.index in a.sawInput && x.index in a.blocks
           && IsTruncated(a.blocks[x.index], valid) && x.name == ToolLabel(a.blocks[x.index].toolUse.value)
  {
    if order == [] {
    } else {
      FrontLast(order);
      TruncatedMembers(a, order[..|order| - 1], valid, x);
    }
  }

  lemma {:induction false} UnsignedMembers(a: Agg, order: seq<int>, x: Unsafe)
    ensures x in Unsigned(a, order)
      <==> x.OpenThinking? && x.index in order && x.index !in a.closed && x.index in a.blocks
           && IsUnsigned(a.blocks[x.index])
  {
    if order == [] {
    } else {
      FrontLast(order);
      UnsignedMembers(a, order[..|order| - 1], x);
    }
  }

  /** Reasoning that never stopped and for which no signature was heard. */
  predicate LeftUnsigned(evs: seq<Event>, i: int) {
    var life := LifeOf(evs, i);
    life.Some? && !Stopped(evs, i) && life.value.start.kind == BlockThinking
    && Heard(life.value, SignatureChannel) == ""
  }

  /** A call whose arguments came in pieces that do not add up to valid JSON. */
  predicate LeftBroken(evs: seq<Event>, i: int, proj: Projection, valid: string -> bool) {
    var life := LifeOf(evs, i);
    && life.Some? && SawPieces(evs, i) && life.value.start.kind == BlockToolUse
    && (life.value.start.toolUse.Some? || TakesInput(life.value.since))
    && var u, input := ToolUseOf(life.value.start), Heard(life.value, InputChannel);
      !valid(if u.kind == ToolCustom then proj(input) else input)
  }

  /** What a call is called: by its id, or else its name. */
  function LabelOf(evs: seq<Event>, i: int): string {
    var life := LifeOf(evs, i);
    if life.None? then "" else
      var u := ToolUseOf(life.value.start);
      if u.id == "" then u.name else u.id
  }

  lemma UnsafeAt(a: Agg, evs: seq<Event>, proj: Projection, valid: string -> bool, i: int)
    requires LivesAt(a, evs, i) && Watched(a, evs) && i in a.blocks
    ensures var b := FilledAt(a, i, proj);
      && (IsUnsigned(b) && i !in a.closed <==> LeftUnsigned(evs, i))
      && (IsTruncated(b, valid) && i in a.sawInput <==> LeftBroken(evs, i, proj, valid))
      && (IsTruncated(b, valid) ==> ToolLabel(b.toolUse.value) == LabelOf(evs, i))
  {
    var life, b := LifeOf(evs, i).value, FilledAt(a, i, proj);
    FillKeepsFrame(a.blocks[i], a.accs[i], life, proj);
    FillHolds(a.blocks[i], a.accs[i], life, proj);
    if b.thinking.None? { NoSignatureHeard(life.since); }
    assert b.kind == life.start.kind;
  }

  /** A stream within the gates is unsafe to close exactly for the calls left broken and the
      reasoning left unsigned, each under its own label. */
  lemma UnsafeExactlyWhenLeft(ops: seq<Op>, proj: Projection, valid: string -> bool, x: Unsafe)
    requires WithinGates(Fed(ops))
    ensures x in UnsafeBlocks(Run(ops, proj), proj, valid) <==>
      match x
      case TruncatedCall(name, i) => LeftBroken(Fed(ops), i, proj, valid) && name == LabelOf(Fed(ops), i)
      case OpenThinking(i) => LeftUnsigned(Fed(ops), i)
  {
    var a, i := Run(ops, proj), x.index;
    var m := Materialize(a, proj);
    GatesTripExactlyWhenFull(ops, proj);
    RunsAreBounded(ops, proj);
    RunLives(ops, proj);
    RunWatched(ops, proj);
    TruncatedMembers(m, m.order, valid, x);
    UnsignedMembers(m, m.order, x);
    assert LivesAt(a, Fed(ops), i);
    if i in a.blocks { UnsafeAt(a, Fed(ops), proj, valid, i); }
  }

  /** Some block is still open exactly when one was heard of and never stopped. */
  lemma OpenExactlyWhenUnstopped(ops: seq<Op>, proj: Projection)
    requires WithinGates(Fed(ops))
    ensures var a := Run(ops, proj);
      (exists i :: i in a.order && i !in a.closed) <==> exists i :: i in Arrivals(Fed(ops)) && !Stopped(Fed(ops), i)
  {
    GatesTripExactlyWhenFull(ops, proj);
    RunWatched(ops, proj);
  }
}
