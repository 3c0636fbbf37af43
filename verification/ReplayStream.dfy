/** A whole response sent to an Anthropic client as a stream: `ResponseEvents` of
    backend/ir/replay.go feeding the encoder of backend/codec/anthropic/encode_stream.go. */
module ReplayStream {
  import opened Ir
  import opened AnthropicStream
  import opened AnthropicGrammar
  import opened Replay

  /** Where the encoder gets with admissible events only. */
  function Passes(s: State, evs: seq<Event>, fam: Family): Option<State> {
    if evs == [] then Some(s)
    else match Passes(s, evs[..|evs| - 1], fam)
      case None => None
      case Some(mid) =>
        var ev := evs[|evs| - 1];
        if Admissible(mid, ev, fam) then Some(Encode(mid, ev, fam).next) else None
  }

  function Onward(at: Option<State>, evs: seq<Event>, fam: Family): Option<State> {
    match at case None => None case Some(s) => Passes(s, evs, fam)
  }

  lemma {:induction false} PassConcat(s: State, x: seq<Event>, y: seq<Event>, fam: Family)
    ensures Passes(s, x + y, fam) == Onward(Passes(s, x, fam), y, fam)
  {
    if y == [] {
      assert x + y == x;
    } else {
      assert (x + y)[..|x + y| - 1] == x + y[..|y| - 1];
      PassConcat(s, x, y[..|y| - 1], fam);
    }
  }

  lemma PassOne(s: State, ev: Event, fam: Family)
    ensures Passes(s, [ev], fam) == if Admissible(s, ev, fam) then Some(Encode(s, ev, fam).next) else None
  {
    assert [ev][..0] == [];
    assert Passes(s, [], fam) == Some(s);
  }

  lemma {:induction false} PassesWhenAdmissible(s: State, evs: seq<Event>, fam: Family)
    ensures Passes(s, evs, fam).Some? <==> AllAdmissible(s, evs, fam)
    ensures Passes(s, evs, fam).Some? ==> Passes(s, evs, fam).value == EncodeAll(s, evs, fam).next
  {
    if evs == [] {
    } else {
      PassesWhenAdmissible(s, evs[..|evs| - 1], fam);
      AdmissiblePrefix(s, evs, fam);
    }
  }

  /** Redacted reasoning without its ciphertext cannot be opened, so text or a signature of
      its own has nowhere to go. */
  predicate Stranded(b: Block, fam: Family) {
    && b.kind == BlockThinking && b.thinking.Some?
    && var t := b.thinking.value;
       && t.redacted && t.redactedData == ""
       && (t.text != "" || (t.signature != "" && !ForeignSignature(t.signature, t.signatureFrom, fam)))
  }

  /** Between two blocks of a replayed response. */
  ghost predicate Between(s: State, n: nat) {
    && s.started && !s.errored && !s.sentDelta && !s.stopped && s.open == {}
    && forall i :: i in s.order ==> 0 <= i < n
  }

  /** Block `n` has been announced, opened or not. */
  ghost predicate Within(s: State, n: nat) {
    && s.started && !s.errored && !s.sentDelta && !s.stopped && s.open <= {n}
    && forall i :: i in s.order ==> 0 <= i <= n
  }

  lemma StartKeeps(s: State, n: nat, b: Block, fam: Family)
    requires Between(s, n)
    ensures var ev := BlockStart(n, Some(Skeleton(b)));
      Admissible(s, ev, fam) && Within(Encode(s, ev, fam).next, n)
      && (n in Encode(s, ev, fam).next.open <==> OpeningOf(Some(Skeleton(b)), fam).Opened?)
  {}

  lemma DeltaKeeps(s: State, n: nat, ev: Event, fam: Family)
    requires Within(s, n) && n in s.open
    requires ev.TextDelta? || ev.ThinkingDelta? || ev.SigDelta? || ev.ToolInput? || ev.CitationDelta?
    requires ev.index == n
    ensures var out := Passes(s, [ev], fam);
      out.Some? && Within(out.value, n) && n in out.value.open
  {
    PassOne(s, ev, fam);
  }

  lemma OpenDeltas(s: State, n: nat, b: Block, fam: Family)
    requires Within(s, n) && n in s.open
    ensures var out := Passes(s, Deltas(n, b), fam); out.Some? && Within(out.value, n)
  {
    var ds := Deltas(n, b);
    if ds != [] {
      DeltaKeeps(s, n, ds[0], fam);
      if |ds| == 2 {
        assert ds == [ds[0]] + [ds[1]];
        PassConcat(s, [ds[0]], [ds[1]], fam);
        DeltaKeeps(Passes(s, [ds[0]], fam).value, n, ds[1], fam);
      } else {
        assert ds == [ds[0]];
      }
    }
  }

  /** Reasoning that was not opened can only be redacted reasoning without ciphertext. */
  lemma UnopenedThinking(s: State, n: nat, b: Block, fam: Family)
    requires Within(s, n) && n !in s.open && !OpeningOf(Some(Skeleton(b)), fam).Opened?
    requires b.kind == BlockThinking && b.thinking.Some?
    ensures Passes(s, Deltas(n, b), fam) == if Stranded(b, fam) then None else Some(s)
  {
    var t := b.thinking.value;
    var text, sig := ThinkingDelta(n, t.text), SigDelta(n, t.signature, t.signatureFrom);
    assert t.redacted && t.redactedData == "";
    PassConcat(s, Unless(t.text == "", text), Unless(t.signature == "", sig), fam);
    PassOne(s, text, fam);
    PassOne(s, sig, fam);
  }

  lemma UnopenedDeltas(s: State, n: nat, b: Block, fam: Family)
    requires Within(s, n) && n !in s.open && !OpeningOf(Some(Skeleton(b)), fam).Opened?
    ensures Passes(s, Deltas(n, b), fam) == if Stranded(b, fam) then None else Some(s)
  {
    if b.kind == BlockThinking && b.thinking.Some? {
      UnopenedThinking(s, n, b, fam);
    } else {
      assert Deltas(n, b) == [];
    }
  }

  lemma BlockPasses(s: State, n: nat, b: Block, fam: Family)
    requires Between(s, n)
    ensures var out := Passes(s, BlockEvents(n, b), fam);
      if Stranded(b, fam) then out == None else out.Some? && Between(out.value, n + 1)
  {
    var start, deltas, stop := BlockStart(n, Some(Skeleton(b))), Deltas(n, b), BlockStop(n);
    StartKeeps(s, n, b, fam);
    PassOne(s, start, fam);
    PassConcat(s, [start], deltas, fam);
    PassConcat(s, [start] + deltas, [stop], fam);
    var begun := Encode(s, start, fam).next;
    if n in begun.open {
      assert !Stranded(b, fam);
      OpenDeltas(begun, n, b, fam);
    } else {
      UnopenedDeltas(begun, n, b, fam);
    }
    if !Stranded(b, fam) { StopKeeps(Passes(begun, deltas, fam).value, n, fam); }
  }

  lemma StopKeeps(s: State, n: nat, fam: Family)
    requires Within(s, n)
    ensures var out := Passes(s, [BlockStop(n)], fam); out.Some? && Between(out.value, n + 1)
  {
    PassOne(s, BlockStop(n), fam);
  }

  predicate NoneStranded(content: seq<Block>, fam: Family) {
    forall i :: 0 <= i < |content| ==> !Stranded(content[i], fam)
  }

  lemma NoneStrandedMore(content: seq<Block>, fam: Family)
    requires content != []
    ensures var n := |content| - 1;
      NoneStranded(content, fam) <==> NoneStranded(content[..n], fam) && !Stranded(content[n], fam)
  {
    var n := |content| - 1;
    if NoneStranded(content[..n], fam) && !Stranded(content[n], fam) {
      forall i | 0 <= i < |content| ensures !Stranded(content[i], fam) {
        if i < n { assert content[..n][i] == content[i]; }
      }
    }
  }

  lemma {:induction false} ContentPasses(s: State, content: seq<Block>, fam: Family)
    requires Between(s, 0)
    ensures var out := Passes(s, ContentEvents(content), fam);
      if NoneStranded(content, fam) then out.Some? && Between(out.value, |content|) else out == None
  {
    if content == [] {
    } else {
      var n := |content| - 1;
      var front := content[..n];
      ContentPasses(s, front, fam);
      NoneStrandedMore(content, fam);
      PassConcat(s, ContentEvents(front), BlockEvents(n, content[n]), fam);
      var mid := Passes(s, ContentEvents(front), fam);
      if mid.Some? { BlockPasses(mid.value, n, content[n], fam); }
    }
  }

  lemma EndPasses(s: State, n: nat, r: Response, fam: Family)
    requires Between(s, n)
    ensures Passes(s, [EndEvent(r), MessageStop], fam).Some?
  {
    assert [EndEvent(r), MessageStop] == [EndEvent(r)] + [MessageStop];
    PassConcat(s, [EndEvent(r)], [MessageStop], fam);
    PassOne(s, EndEvent(r), fam);
    PassOne(Encode(s, EndEvent(r), fam).next, MessageStop, fam);
  }

  /** Whatever the response, the client gets a complete stream, unless the response holds
      redacted reasoning that lost its ciphertext yet carries text or a usable signature. */
  lemma ReplayStreamsCompletely(r: Response, fam: Family)
    ensures Over(Follow(NEW_CLIENT, Transcript(ResponseEvents(r), fam)))
       <==> NoneStranded(r.content, fam)
  {
    var start, content, end := [StartEvent(r)], ContentEvents(r.content), [EndEvent(r), MessageStop];
    PassOne(FRESH, StartEvent(r), fam);
    PassConcat(FRESH, start, content, fam);
    PassConcat(FRESH, start + content, end, fam);
    var begun := Encode(FRESH, StartEvent(r), fam).next;
    ContentPasses(begun, r.content, fam);
    var full := Passes(begun, content, fam);
    if full.Some? { EndPasses(full.value, |r.content|, r, fam); }
    PassesWhenAdmissible(FRESH, ResponseEvents(r), fam);
    NoErrorsReplayed(r.content);
    var evs := ResponseEvents(r);
    forall k | 0 <= k < |evs| ensures !evs[k].StreamError? { assert evs[k] in evs; }
    CompletedExactlyWhenAdmissible(evs, fam);
  }

  lemma {:induction false} NoErrorsReplayed(content: seq<Block>)
    ensures forall ev :: ev in ContentEvents(content) ==> !ev.StreamError?
  {
    if content == [] {
    } else {
      NoErrorsReplayed(content[..|content| - 1]);
    }
  }
}
