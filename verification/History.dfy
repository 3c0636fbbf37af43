/** The last two repairs of a history, `pruneEmpty` and `mergeAdjacentRoles`, and what all
    repairs together guarantee: backend/ir/sanitize.go. */
module History {
  import opened Ir
  import opened Seqs
  import opened Blocks
  import opened Pairing
  import opened ToolDecl

  // ----- empty messages and trailing white space -----

  predicate IsTrimmed(c: char) { c == ' ' || c == '\t' || c == '\r' || c == '\n' }

  function TrimRight(s: string): (t: string)
    ensures t <= s && (t == "" || !IsTrimmed(t[|t| - 1]))
    ensures forall i :: |t| <= i < |s| ==> IsTrimmed(s[i])
  {
    if s != "" && IsTrimmed(s[|s| - 1]) then TrimRight(s[..|s| - 1]) else s
  }

  /** Looks at the last block only, as `trimTrailingWhitespace` does. */
  function TrimLast(content: seq<Block>): seq<Block> {
    if content == [] then content
    else
      var n, last := |content| - 1, content[|content| - 1];
      if last.kind != BlockText then content
      else
        var trimmed := TrimRight(last.text);
        if trimmed == "" && last.text != "" then content[..n] else content[n := last.(text := trimmed)]
  }

  /** The history ends in an assistant text with white space behind it. */
  predicate EndsLoose(ms: seq<Message>) {
    && ms != [] && ms[|ms| - 1].role == Assistant
    && TrimLast(ms[|ms| - 1].content) != ms[|ms| - 1].content
  }

  function TrimPrefill(ms: seq<Message>): seq<Message> {
    if EndsLoose(ms) then
      var n := |ms| - 1;
      ms[n := ms[n].(content := TrimLast(ms[n].content))]
    else ms
  }

  predicate IsEmptyContent(content: seq<Block>) {
    forall i :: 0 <= i < |content| ==> content[i].kind == BlockText && IsBlank(content[i].text)
  }

  predicate IsEmptyMessage(m: Message) { m.audioId == "" && IsEmptyContent(m.content) }

  datatype PruneNote = PrefillTrimmed | EmptyDropped(role: Role, index: nat)

  function DropEmpty(ms: seq<Message>): (seq<Message>, seq<PruneNote>) {
    if ms == [] then ([], [])
    else
      var (kept, notes) := DropEmpty(ms[..|ms| - 1]);
      var m := ms[|ms| - 1];
      if IsEmptyMessage(m) then (kept, notes + [EmptyDropped(m.role, |ms| - 1)]) else (kept + [m], notes)
  }

  function PruneEmpty(ms: seq<Message>): (seq<Message>, seq<PruneNote>) {
    var (kept, notes) := DropEmpty(TrimPrefill(ms));
    (kept, (if EndsLoose(ms) then [PrefillTrimmed] else []) + notes)
  }

  // ----- adjacent messages of one role -----

  predicate NeedsSeparator(prev: seq<Block>, next: seq<Block>) {
    && prev != [] && next != []
    && prev[|prev| - 1].kind == BlockText && next[0].kind == BlockText
    && prev[|prev| - 1].text != "" && next[0].text != ""
    && !IsTrimmed(prev[|prev| - 1].text[|prev[|prev| - 1].text| - 1])
    && !IsTrimmed(next[0].text[0])
  }

  function Join(a: Message, b: Message): Message {
    a.(content := a.content
                  + (if NeedsSeparator(a.content, b.content) then [TextBlock("\n\n")] else [])
                  + b.content)
  }

  predicate Mergeable(a: Message, b: Message) {
    a.role == b.role && a.audioId == "" && b.audioId == ""
  }

  function Merge(ms: seq<Message>): seq<Message>
    decreases |ms|
  {
    if |ms| < 2 then ms
    else if Mergeable(ms[0], ms[1]) then Merge([Join(ms[0], ms[1])] + ms[2..])
    else [ms[0]] + Merge(ms[1..])
  }

  // ----- calls stay with the assistant -----

  /** Every message that makes a call is an assistant message. */
  predicate CallsByAssistant(ms: seq<Message>) {
    forall i :: 0 <= i < |ms| && UseIds(ms[i].content) != [] ==> ms[i].role == Assistant
  }

  /** The same, counting only the calls that some result answers. */
  predicate AnsweredByAssistant(ms: seq<Message>, answers: seq<string>) {
    forall i :: 0 <= i < |ms| && Select(ms[i].content, AnsweredUseOf(answers)) != [] ==> ms[i].role == Assistant
  }

  lemma {:induction false} DemoteKeepsCallers(
      ms: seq<Message>, uses: set<string>, kept: set<string>, answers: seq<string>)
    requires AnsweredByAssistant(ms, answers)
    ensures AnsweredByAssistant(DemoteMessages(ms, uses, kept).out, answers)
  {
    if ms == [] {
    } else {
      var front, m := ms[..|ms| - 1], ms[|ms| - 1];
      var last := DemoteBlocks(m.content, uses, kept);
      DemoteInPlace(m.content, uses, kept);
      SelectPointwise(m.content, last.out, AnsweredUseOf(answers));
      DemoteKeepsCallers(front, uses, last.kept, answers);
    }
  }

  lemma {:induction false} DropKeepsCallers(ms: seq<Message>, results: map<string, nat>, answers: seq<string>)
    requires AnsweredByAssistant(ms, answers) && Counts(results, answers)
    ensures CallsByAssistant(DropMessages(ms, results).kept)
  {
    if ms == [] {
    } else {
      var front, m := ms[..|ms| - 1], ms[|ms| - 1];
      DropKeepsCallers(front, results, answers);
      DropIds(m.content, results, answers);
    }
  }

  lemma {:induction false} LayoutKeepsCallers(ms: seq<Message>, groups: seq<seq<Block>>, carry: seq<Block>)
    requires |groups| == |ms| && CallsByAssistant(ms)
    requires UseIds(carry) == [] && forall i :: 0 <= i < |groups| ==> UseIds(groups[i]) == []
    ensures CallsByAssistant(Layout(ms, groups, carry))
  {
    if ms == [] {
    } else {
      LayoutKeepsCallers(ms[1..], groups[1..], groups[0]);
      HostKeepsCallers(carry, ms[0]);
      CallersConcat(Host(carry, ms[0]), Layout(ms[1..], groups[1..], groups[0]));
    }
  }

  lemma HostKeepsCallers(carry: seq<Block>, m: Message)
    requires UseIds(carry) == [] && CallsByAssistant([m])
    ensures CallsByAssistant(Host(carry, m))
  {
    IdsConcat(carry, m.content);
    assert [m][0] == m;
  }

  lemma CallersConcat(a: seq<Message>, b: seq<Message>)
    requires CallsByAssistant(a) && CallsByAssistant(b)
    ensures CallsByAssistant(a + b)
  {}

  lemma PulledAreResults(bs: seq<Block>, uses: set<string>)
    ensures forall id :: id in Pulled(bs, uses) ==> IsResult(Pulled(bs, uses)[id])
  {
    PulledRecords(bs, uses);
    forall id | id in Pulled(bs, uses) ensures IsResult(Pulled(bs, uses)[id]) {
      assert ResultId(Pulled(bs, uses)[id]) == id;
    }
  }

  lemma ReorderKeepsCallers(ms: seq<Message>)
    requires CallsByAssistant(ms)
    ensures CallsByAssistant(Reorder(ms).messages)
  {
    var uses := IndexTools(ms).uses;
    var pulled := Pulled(Flat(ms), uses.Keys);
    var st, gs := Strip(ms, uses.Keys), Groups(ms, uses, pulled);
    StripEach(ms, uses.Keys);
    PulledAreResults(Flat(ms), uses.Keys);
    forall i | 0 <= i < |ms|
      ensures UseIds(st[i].content) == UseIds(ms[i].content) && UseIds(gs[i]) == []
    {
      StripContent(ms[i].content, uses.Keys);
      GroupHasNoCalls(CallOrder(ms[i].content, i, uses, |ms[i].content|), pulled);
    }
    if |uses| != 0 && |pulled| != 0 {
      LayoutKeepsCallers(st, gs, []);
    }
  }

  lemma {:induction false} GroupHasNoCalls(ids: seq<string>, pulled: map<string, Block>)
    requires forall id :: id in pulled ==> IsResult(pulled[id])
    ensures UseIds(Group(ids, pulled)) == []
  {
    if ids == [] {
    } else {
      var front, id := ids[..|ids| - 1], ids[|ids| - 1];
      GroupHasNoCalls(front, pulled);
      if id in pulled {
        IdsAppend(Group(front, pulled), pulled[id]);
      } else {
        assert Group(ids, pulled) == Group(front, pulled);
      }
    }
  }

  lemma PairToolsKeepsCallers(ms: seq<Message>)
    requires Repairable(ms) && AnsweredByAssistant(ms, ResultIds(Flat(ms)))
    ensures CallsByAssistant(PairTools(ms).messages)
  {
    if IndexFinds(ms) {
      var ix := IndexTools(ms);
      assert Counts(ix.results, ResultIds(Flat(ms))) by { IndexToolsRecords(ms); }
      IndexFindsIsTheGuard(ms);
      DemoteKeepsCallers(ms, ix.uses.Keys, {}, ResultIds(Flat(ms)));
      DropKeepsCallers(DemotedOf(ms).out, ix.results, ResultIds(Flat(ms)));
      ReorderKeepsCallers(DroppedOf(ms).kept);
    } else {
      UntouchedState(ms);
      forall i | 0 <= i < |ms| ensures UseIds(ms[i].content) == [] {
        FlatMember(ms, i);
        NoMembers(UseIds(ms[i].content));
      }
    }
  }

  // ----- pruning keeps a paired history paired -----

  lemma {:induction false} EmptyHasNoTools(content: seq<Block>)
    requires forall i :: 0 <= i < |content| ==> content[i].kind == BlockText
    ensures UseIds(content) == [] && ResultIds(content) == []
  {
    if content == [] {
    } else {
      var front, b := content[..|content| - 1], content[|content| - 1];
      EmptyHasNoTools(front);
      FrontLast(content);
      IdsAppend(front, b);
    }
  }

  function Solid(ms: seq<Message>): seq<Message> {
    if ms == [] then [] else (if IsEmptyMessage(ms[0]) then [] else [ms[0]]) + Solid(ms[1..])
  }

  lemma {:induction false} SolidConcat(a: seq<Message>, b: seq<Message>)
    ensures Solid(a + b) == Solid(a) + Solid(b)
  {
    if a == [] {
      assert a + b == b;
    } else {
      assert (a + b)[1..] == a[1..] + b;
      SolidConcat(a[1..], b);
    }
  }

  lemma {:induction false} DropEmptyIsSolid(ms: seq<Message>)
    ensures DropEmpty(ms).0 == Solid(ms)
    ensures DropEmpty(ms).1 == [] <==> Solid(ms) == ms
    ensures |Solid(ms)| <= |ms|
  {
    if ms == [] {
    } else {
      var front, m := ms[..|ms| - 1], ms[|ms| - 1];
      DropEmptyIsSolid(front);
      SolidConcat(front, [m]);
      FrontLast(ms);
      assert Solid([m]) == if IsEmptyMessage(m) then [] else [m];
      if Solid(ms) == ms && !IsEmptyMessage(m) {
        assert Solid(front) == (Solid(front) + [m])[..|ms| - 1];
      }
    }
  }

  lemma {:induction false} SolidMembers(ms: seq<Message>)
    ensures forall i :: 0 <= i < |Solid(ms)| ==> !IsEmptyMessage(Solid(ms)[i]) && Solid(ms)[i] in ms
  {
    if ms == [] {
    } else {
      SolidMembers(ms[1..]);
      forall i | 0 <= i < |Solid(ms)| ensures !IsEmptyMessage(Solid(ms)[i]) && Solid(ms)[i] in ms {
        var rest := Solid(ms[1..]);
        if IsEmptyMessage(ms[0]) {
          assert Solid(ms) == rest && rest[i] in ms[1..];
        } else if i > 0 {
          assert Solid(ms)[i] == rest[i - 1] && rest[i - 1] in ms[1..];
        }
      }
    }
  }

  lemma {:induction false} SolidKeeps(ms: seq<Message>, owed: seq<string>)
    requires Paired(ms, owed)
    ensures Paired(Solid(ms), owed) && UseIds(Flat(Solid(ms))) == UseIds(Flat(ms))
  {
    if ms == [] {
    } else {
      var m := ms[0];
      FlatCons(ms);
      IdsConcat(m.content, Flat(ms[1..]));
      SolidKeeps(ms[1..], UseIds(m.content));
      if IsEmptyMessage(m) {
        EmptyHasNoTools(m.content);
        LeadIds(m, owed);
        assert owed == [];
        assert Solid(ms) == Solid(ms[1..]);
      } else {
        assert Solid(ms)[1..] == Solid(ms[1..]);
        FlatCons(Solid(ms));
        IdsConcat(m.content, Flat(Solid(ms[1..])));
      }
    }
  }

  lemma TrimKeepsTools(content: seq<Block>)
    ensures UseIds(TrimLast(content)) == UseIds(content) && ResultIds(TrimLast(content)) == ResultIds(content)
  {
    if content != [] && content[|content| - 1].kind == BlockText {
      var n := |content| - 1;
      var front, last := content[..n], content[n];
      FrontLast(content);
      IdsAppend(front, last);
      if TrimLast(content) != front {
        var b := last.(text := TrimRight(last.text));
        assert TrimLast(content) == front + [b];
        IdsAppend(front, b);
      }
    }
  }

  lemma {:induction false} TrimPrefillKeeps(ms: seq<Message>, owed: seq<string>)
    requires Paired(ms, owed)
    ensures Paired(TrimPrefill(ms), owed) && UseIds(Flat(TrimPrefill(ms))) == UseIds(Flat(ms))
  {
    var out := TrimPrefill(ms);
    if EndsLoose(ms) {
      FlatCons(ms);
      FlatCons(out);
      IdsConcat(ms[0].content, Flat(ms[1..]));
      IdsConcat(out[0].content, Flat(out[1..]));
      if |ms| == 1 {
        var content := ms[0].content;
        LeadIds(ms[0], owed);
        TrimKeepsTools(content);
        NoResults(TrimLast(content));
        assert out[1..] == ms[1..];
      } else {
        assert out[1..] == TrimPrefill(ms[1..]);
        TrimPrefillKeeps(ms[1..], UseIds(ms[0].content));
      }
    }
  }

  lemma PruneKeeps(ms: seq<Message>)
    requires Canonical(ms) && CallsByAssistant(ms)
    ensures var out := PruneEmpty(ms).0;
      && Canonical(out) && CallsByAssistant(out) && UseIds(Flat(out)) == UseIds(Flat(ms))
      && forall i :: 0 <= i < |out| ==> !IsEmptyMessage(out[i])
  {
    var trimmed := TrimPrefill(ms);
    TrimPrefillKeeps(ms, []);
    DropEmptyIsSolid(trimmed);
    SolidKeeps(trimmed, []);
    SolidMembers(trimmed);
    if EndsLoose(ms) { TrimKeepsTools(ms[|ms| - 1].content); }
    assert CallsByAssistant(trimmed);
    forall m | m in trimmed && UseIds(m.content) != [] ensures m.role == Assistant {
      var i :| 0 <= i < |trimmed| && trimmed[i] == m;
    }
  }

  // ----- merging keeps a paired history paired and makes roles alternate -----

  lemma JoinTools(a: Message, b: Message)
    ensures UseIds(Join(a, b).content) == UseIds(a.content) + UseIds(b.content)
    ensures ResultIds(Join(a, b).content) == ResultIds(a.content) + ResultIds(b.content)
  {
    var sep := if NeedsSeparator(a.content, b.content) then [TextBlock("\n\n")] else [];
    EmptyHasNoTools(sep);
    IdsConcat(a.content + sep, b.content);
    IdsConcat(a.content, sep);
  }

  lemma {:induction false} MergeKeeps(ms: seq<Message>, owed: seq<string>)
    requires Paired(ms, owed) && CallsByAssistant(ms)
    ensures Paired(Merge(ms), owed) && CallsByAssistant(Merge(ms))
    decreases |ms|
  {
    if |ms| >= 2 {
      if Mergeable(ms[0], ms[1]) {
        JoinPaired(ms, owed);
        MergeKeeps([Join(ms[0], ms[1])] + ms[2..], owed);
      } else {
        MergeKeeps(ms[1..], UseIds(ms[0].content));
        assert Merge(ms)[1..] == Merge(ms[1..]);
      }
    }
  }

  lemma {:induction false} MergeKeepsUses(ms: seq<Message>)
    ensures UseIds(Flat(Merge(ms))) == UseIds(Flat(ms))
    decreases |ms|
  {
    if |ms| >= 2 {
      if Mergeable(ms[0], ms[1]) {
        MergeKeepsUses([Join(ms[0], ms[1])] + ms[2..]);
        JoinKeepsUses(ms[0], ms[1], ms[2..]);
        assert ms == [ms[0]] + ([ms[1]] + ms[2..]);
      } else {
        MergeKeepsUses(ms[1..]);
        ConsUses(ms[0], Merge(ms[1..]));
        FlatUses(ms);
      }
    }
  }

  lemma ConsUses(m: Message, rest: seq<Message>)
    ensures UseIds(Flat([m] + rest)) == UseIds(m.content) + UseIds(Flat(rest))
  {
    FlatUses([m] + rest);
    assert ([m] + rest)[1..] == rest;
  }

  lemma JoinKeepsUses(a: Message, b: Message, rest: seq<Message>)
    ensures UseIds(Flat([Join(a, b)] + rest)) == UseIds(Flat([a] + ([b] + rest)))
  {
    var joined := Join(a, b);
    assert UseIds(joined.content) == UseIds(a.content) + UseIds(b.content) by { JoinTools(a, b); }
    ConsUses(joined, rest);
    ConsUses(b, rest);
    ConsUses(a, [b] + rest);
  }

  lemma FlatUses(ms: seq<Message>)
    requires ms != []
    ensures UseIds(Flat(ms)) == UseIds(ms[0].content) + UseIds(Flat(ms[1..]))
  {
    FlatCons(ms);
    IdsConcat(ms[0].content, Flat(ms[1..]));
  }

  /** Messages that merge share a role, so the first of them makes no call. */
  lemma JoinPaired(ms: seq<Message>, owed: seq<string>)
    requires |ms| >= 2 && Mergeable(ms[0], ms[1]) && Paired(ms, owed) && CallsByAssistant(ms)
    ensures Paired([Join(ms[0], ms[1])] + ms[2..], owed)
    ensures CallsByAssistant([Join(ms[0], ms[1])] + ms[2..])
  {
    var a, b := ms[0], ms[1];
    var joined := [Join(a, b)] + ms[2..];
    assert ms[1..][0] == b && ms[1..][1..] == ms[2..] && joined[1..] == ms[2..];
    assert UseIds(a.content) == [];
    assert LeadsWith(b, []) && Paired(ms[2..], UseIds(b.content)) by {
      assert Paired(ms[1..], UseIds(a.content));
    }
    JoinTools(a, b);
    assert [] + UseIds(b.content) == UseIds(b.content);
    JoinLeads(a, b, owed);
    forall i | 0 <= i < |joined| && UseIds(joined[i].content) != [] ensures joined[i].role == Assistant {
      if i == 0 { assert UseIds(b.content) != []; } else { assert joined[i] == ms[i + 1]; }
    }
  }

  lemma JoinLeads(a: Message, b: Message, owed: seq<string>)
    requires LeadsWith(a, owed) && LeadsWith(b, [])
    ensures LeadsWith(Join(a, b), owed)
  {}

  /** No two neighbours share a role, unless one of them refers to an audio turn. */
  predicate Alternating(ms: seq<Message>) {
    forall i :: 0 < i < |ms| && ms[i - 1].role == ms[i].role ==> ms[i - 1].audioId != "" || ms[i].audioId != ""
  }

  lemma {:induction false} MergeAlternates(ms: seq<Message>)
    ensures var out := Merge(ms);
      && Alternating(out) && |out| <= |ms|
      && (ms != [] ==> out != [] && out[0].role == ms[0].role && out[0].audioId == ms[0].audioId)
    decreases |ms|
  {
    if |ms| >= 2 {
      if Mergeable(ms[0], ms[1]) {
        MergeAlternates([Join(ms[0], ms[1])] + ms[2..]);
      } else {
        MergeAlternates(ms[1..]);
      }
    }
  }

  lemma JoinSolid(a: Message, b: Message)
    requires a.audioId == "" && !IsEmptyMessage(a)
    ensures !IsEmptyMessage(Join(a, b))
  {
    var i :| 0 <= i < |a.content| && !(a.content[i].kind == BlockText && IsBlank(a.content[i].text));
    assert Join(a, b).content[i] == a.content[i];
  }

  lemma {:induction false} MergeSolid(ms: seq<Message>)
    requires forall i :: 0 <= i < |ms| ==> !IsEmptyMessage(ms[i])
    ensures forall i :: 0 <= i < |Merge(ms)| ==> !IsEmptyMessage(Merge(ms)[i])
    decreases |ms|
  {
    if |ms| >= 2 {
      if Mergeable(ms[0], ms[1]) {
        JoinSolid(ms[0], ms[1]);
        MergeSolid([Join(ms[0], ms[1])] + ms[2..]);
      } else {
        MergeSolid(ms[1..]);
      }
    }
  }

  // ----- everything together -----

  /** The history after all repairs, tool names aside. */
  function Repaired(ms: seq<Message>): seq<Message> {
    Merge(PruneEmpty(PairTools(ms).messages).0)
  }

  /** What an upstream expects of a history. */
  predicate Acceptable(ms: seq<Message>) {
    && Canonical(ms) && CallsByAssistant(ms) && Alternating(ms)
    && forall i :: 0 <= i < |ms| ==> !IsEmptyMessage(ms[i])
  }

  /** For every repairable history whose answered calls come from the assistant, the repaired
      one is acceptable, and it makes exactly the calls that were answered. */
  lemma RepairedIsAcceptable(ms: seq<Message>)
    requires Repairable(ms) && AnsweredByAssistant(ms, ResultIds(Flat(ms)))
    ensures Acceptable(Repaired(ms))
    ensures IndexFinds(ms) ==> UseIds(Flat(Repaired(ms))) == AnsweredIds(ms)
  {
    var paired := PairTools(ms).messages;
    RepairedIsCanonical(ms);
    PairToolsKeepsCallers(ms);
    PruneKeeps(paired);
    var pruned := PruneEmpty(paired).0;
    MergeKeeps(pruned, []);
    MergeKeepsUses(pruned);
    MergeAlternates(pruned);
    MergeSolid(pruned);
  }

  /** `Acceptable`, read off the messages: the calls of a message are answered at the head of
      the next one, a user message, in call order, and nowhere else. */
  lemma AcceptableMeans(ms: seq<Message>, i: nat)
    requires Acceptable(ms) && i < |ms|
    ensures var calls := UseIds(ms[i].content);
      && (calls != [] ==> i + 1 < |ms| && ms[i].role == Assistant && ms[i + 1].role == User)
      && (i + 1 < |ms| ==> LeadsWith(ms[i + 1], calls))
    ensures ResultIds(ms[0].content) == []
    ensures ResultIds(Flat(ms)) == UseIds(Flat(ms)) && Distinct(UseIds(Flat(ms)))
  {
    PairedMeans(ms, []);
    PairedIds(ms, []);
    LeadIds(ms[0], []);
    if i + 1 < |ms| { assert LeadsWith(ms[i + 1], UseIds(ms[i + 1 - 1].content)); }
  }

  // ----- when a second repair changes nothing -----

  lemma {:induction false} MergeFixed(ms: seq<Message>)
    requires Alternating(ms)
    ensures Merge(ms) == ms
    decreases |ms|
  {
    if |ms| >= 2 {
      forall i | 0 < i < |ms[1..]| && ms[1..][i - 1].role == ms[1..][i].role
        ensures ms[1..][i - 1].audioId != "" || ms[1..][i].audioId != ""
      {
        assert ms[i].role == ms[i + 1].role;
      }
      assert !Mergeable(ms[0], ms[1]) by { assert ms[1 - 1] == ms[0]; }
      MergeFixed(ms[1..]);
    }
  }

  lemma {:induction false} SolidFixed(ms: seq<Message>)
    requires forall i :: 0 <= i < |ms| ==> !IsEmptyMessage(ms[i])
    ensures Solid(ms) == ms
  {
    if ms == [] {
    } else {
      SolidFixed(ms[1..]);
    }
  }

  /** Repairing an acceptable history again changes it exactly when it ends in an assistant
      text with white space behind it: only one trailing block is looked at per repair. */
  lemma RepairedAgain(ms: seq<Message>)
    requires Acceptable(ms)
    ensures Repaired(ms) == ms <==> !EndsLoose(ms)
  {
    CanonicalIsFixed(ms);
    var trimmed := TrimPrefill(ms);
    DropEmptyIsSolid(trimmed);
    if EndsLoose(ms) {
      var n := |ms| - 1;
      assert trimmed[n].content != ms[n].content;
      MergeFull(Solid(trimmed));
      SameLength(trimmed);
    } else {
      SolidFixed(ms);
      MergeFixed(ms);
    }
  }

  lemma {:induction false} SameLength(ms: seq<Message>)
    ensures |Solid(ms)| <= |ms| && (|Solid(ms)| == |ms| ==> Solid(ms) == ms)
  {
    if ms == [] {
    } else {
      SameLength(ms[1..]);
    }
  }

  lemma {:induction false} MergeFull(ms: seq<Message>)
    ensures |Merge(ms)| <= |ms| && (|Merge(ms)| == |ms| ==> Merge(ms) == ms)
    decreases |ms|
  {
    if |ms| >= 2 {
      if Mergeable(ms[0], ms[1]) {
        MergeFull([Join(ms[0], ms[1])] + ms[2..]);
      } else {
        MergeFull(ms[1..]);
      }
    }
  }

  /** Content that ends in a text with white space behind it. */
  predicate LooseEnd(content: seq<Block>) {
    && content != [] && content[|content| - 1].kind == BlockText
    && TrimRight(content[|content| - 1].text) != content[|content| - 1].text
  }

  /** Content that is still loose when its last block has been trimmed away: the last text is
      nothing but white space, and so is the end of the one before it. */
  predicate TwiceLoose(content: seq<Block>) {
    && LooseEnd(content) && TrimRight(content[|content| - 1].text) == ""
    && LooseEnd(content[..|content| - 1])
  }

  /** Empty messages aside, the history ends in an assistant message with a loose end. */
  predicate LooseAtEnd(ms: seq<Message>) {
    ms != [] &&
    var n, m := |ms| - 1, ms[|ms| - 1];
    if IsEmptyMessage(m) then LooseAtEnd(ms[..n]) else m.role == Assistant && LooseEnd(m.content)
  }

  /** One repair leaves white space at the end: it is spent on an empty message behind a loose
      one, or on the last of two loose blocks. */
  predicate LeavesLoose(ms: seq<Message>) {
    ms != [] &&
    var n, m := |ms| - 1, ms[|ms| - 1];
    if IsEmptyMessage(m) then LooseAtEnd(ms[..n]) else m.role == Assistant && TwiceLoose(m.content)
  }

  lemma TrimChangesLoose(content: seq<Block>)
    ensures TrimLast(content) != content <==> LooseEnd(content)
    ensures LooseEnd(TrimLast(content)) <==> TwiceLoose(content)
    ensures IsEmptyContent(TrimLast(content)) <==> IsEmptyContent(content)
  {
    if content != [] && content[|content| - 1].kind == BlockText {
      var n, last := |content| - 1, content[|content| - 1];
      var trimmed, out := TrimRight(last.text), TrimLast(content);
      TrimIsStable(last.text);
      TrimKeepsBlank(last.text);
      if trimmed == last.text { assert last.(text := trimmed) == last && content[n := last] == content; }
      if !IsEmptyContent(content) {
        var i :| 0 <= i < |content| && !(content[i].kind == BlockText && IsBlank(content[i].text));
        assert i < |out| && !(out[i].kind == BlockText && IsBlank(out[i].text)) by {
          if i < n { assert out[i] == content[i]; }
        }
      }
    }
  }

  lemma {:induction false} TrimIsStable(s: string)
    ensures TrimRight(TrimRight(s)) == TrimRight(s)
  {
    if s == "" || !IsTrimmed(s[|s| - 1]) {
    } else {
      TrimIsStable(s[..|s| - 1]);
    }
  }

  lemma TrimKeepsBlank(s: string)
    ensures IsBlank(TrimRight(s)) <==> IsBlank(s)
  {
    var t := TrimRight(s);
    if IsBlank(t) {
      forall i | 0 <= i < |s| ensures IsSpace(s[i]) {
        if i < |t| { assert t[i] == s[i]; } else { assert IsTrimmed(s[i]); }
      }
    }
    if IsBlank(s) {
      forall i | 0 <= i < |t| ensures IsSpace(t[i]) { assert t[i] == s[i]; }
    }
  }

  lemma EndsLooseMeans(ms: seq<Message>)
    ensures EndsLoose(ms) <==> ms != [] && ms[|ms| - 1].role == Assistant && LooseEnd(ms[|ms| - 1].content)
  {
    if ms != [] { TrimChangesLoose(ms[|ms| - 1].content); }
  }

  /** Merging moves no end. */
  lemma {:induction false} MergeKeepsEnd(ms: seq<Message>)
    requires forall i :: 0 <= i < |ms| ==> !IsEmptyMessage(ms[i])
    ensures EndsLoose(Merge(ms)) <==> EndsLoose(ms)
    decreases |ms|
  {
    if |ms| < 2 {
    } else if Mergeable(ms[0], ms[1]) {
      var next := [Join(ms[0], ms[1])] + ms[2..];
      JoinSolid(ms[0], ms[1]);
      MergeKeepsEnd(next);
      JoinKeepsEnd(ms[0], ms[1]);
      EndsLooseMeans(ms);
      EndsLooseMeans(next);
      if |ms| > 2 { assert next[|next| - 1] == ms[|ms| - 1]; }
    } else {
      MergeKeepsEnd(ms[1..]);
      MergeAlternates(ms[1..]);
      EndsLooseMeans(ms);
      EndsLooseMeans(ms[1..]);
      EndsLooseMeans(Merge(ms));
      EndsLooseMeans(Merge(ms[1..]));
    }
  }

  lemma JoinKeepsEnd(a: Message, b: Message)
    requires Mergeable(a, b) && !IsEmptyMessage(b)
    ensures LooseEnd(Join(a, b).content) <==> LooseEnd(b.content)
  {
    assert b.content != [];
    var content := Join(a, b).content;
    assert content[|content| - 1] == b.content[|b.content| - 1];
  }

  lemma {:induction false} SolidEnd(ms: seq<Message>)
    ensures EndsLoose(Solid(ms)) <==> LooseAtEnd(ms)
  {
    if ms == [] {
    } else {
      var front, m := ms[..|ms| - 1], ms[|ms| - 1];
      FrontLast(ms);
      SolidConcat(front, [m]);
      assert Solid([m]) == if IsEmptyMessage(m) then [] else [m];
      SolidEnd(front);
      ConcatNothing(Solid(front));
      EndsLooseMeans(Solid(ms));
    }
  }

  lemma TrimmedEnd(ms: seq<Message>)
    ensures LooseAtEnd(TrimPrefill(ms)) <==> LeavesLoose(ms)
  {
    if ms != [] {
      var n, m := |ms| - 1, ms[|ms| - 1];
      TrimChangesLoose(m.content);
      var out := TrimPrefill(ms);
      assert out[..n] == ms[..n];
    }
  }

  /** For every repairable history whose answered calls come from the assistant: repairing it
      twice is repairing it once, exactly when the one trailing block that a repair looks at
      is all the white space there is. */
  lemma RepairedTwiceExactly(ms: seq<Message>)
    requires Repairable(ms) && AnsweredByAssistant(ms, ResultIds(Flat(ms)))
    ensures Repaired(Repaired(ms)) == Repaired(ms) <==> !LeavesLoose(PairTools(ms).messages)
  {
    RepairedIsAcceptable(ms);
    RepairedAgain(Repaired(ms));
    var trimmed := TrimPrefill(PairTools(ms).messages);
    DropEmptyIsSolid(trimmed);
    SolidMembers(trimmed);
    MergeKeepsEnd(Solid(trimmed));
    SolidEnd(trimmed);
    TrimmedEnd(PairTools(ms).messages);
  }

  const LOOSE := [TextBlock("x"), TextBlock(" "), TextBlock(" ")]

  lemma LooseTrims()
    ensures TrimLast(LOOSE) == LOOSE[..2] && TrimLast(LOOSE[..2]) == LOOSE[..1]
    ensures forall m :: m in [Message(Assistant, LOOSE, "", ""), Message(Assistant, LOOSE[..2], "", "")] ==>
      !IsEmptyMessage(m)
  {
    assert TrimRight(" ") == "" by { assert " "[..0] == ""; }
    assert !IsBlank("x") by { assert "x"[0] == 'x'; }
    assert LOOSE[..2][0].kind == BlockText && LOOSE[..2][0].text == "x" && LOOSE[0] == TextBlock("x");
  }

  lemma LooseRepaired()
    ensures var ms, once := [Message(Assistant, LOOSE, "", "")], [Message(Assistant, LOOSE[..2], "", "")];
      Repairable(ms) && AnsweredByAssistant(ms, ResultIds(Flat(ms))) && Repaired(ms) == once
  {
    var ms, once := [Message(Assistant, LOOSE, "", "")], [Message(Assistant, LOOSE[..2], "", "")];
    LooseTrims();
    FlatCons(ms);
    assert Flat(ms) == LOOSE;
    EmptyHasNoTools(LOOSE);
    UntouchedHistory(ms);
    assert EndsLoose(ms) && TrimPrefill(ms) == once;
    SolidFixed(once);
    DropEmptyIsSolid(once);
  }

  /** So the whole repair is not idempotent: two blank blocks behind an answer take two
      repairs to go. */
  lemma NotIdempotent()
    ensures exists ms ::
      && Repairable(ms) && AnsweredByAssistant(ms, ResultIds(Flat(ms)))
      && Repaired(Repaired(ms)) != Repaired(ms)
  {
    var ms, once := [Message(Assistant, LOOSE, "", "")], [Message(Assistant, LOOSE[..2], "", "")];
    LooseRepaired();
    RepairedIsAcceptable(ms);
    LooseTrims();
    RepairedAgain(once);
    assert Repaired(Repaired(ms)) != Repaired(ms);
  }

  lemma UntouchedHistory(ms: seq<Message>)
    requires UseIds(Flat(ms)) == [] && ResultIds(Flat(ms)) == []
    ensures Repairable(ms) && AnsweredByAssistant(ms, ResultIds(Flat(ms))) && PairTools(ms) == Outcome(ms, [])
  {
    assert !IndexFinds(ms);
    UntouchedState(ms);
    forall i | 0 <= i < |ms| ensures Select(ms[i].content, AnsweredUseOf([])) == [] {
      forall id | true ensures id !in Select(ms[i].content, AnsweredUseOf([])) {
        AnsweredMember(ms[i].content, [], id);
      }
      NoMembers(Select(ms[i].content, AnsweredUseOf([])));
    }
  }

  // ----- renaming tools does not disturb the pairing -----

  lemma {:induction false} RenameKeepsIds(ms: seq<Message>, renames: map<string, string>)
    ensures var out := RenameMessages(ms, renames);
      && UseIds(Flat(out)) == UseIds(Flat(ms)) && ResultIds(Flat(out)) == ResultIds(Flat(ms))
      && AnsweredIds(out) == AnsweredIds(ms)
  {
    var out, answers := RenameMessages(ms, renames), ResultIds(Flat(ms));
    RenameKeeps(ms, renames, UseOf);
    RenameKeeps(ms, renames, ResultOf);
    RenameKeeps(ms, renames, AnsweredUseOf(answers));
  }

  lemma {:induction false} RenameKeeps<T>(ms: seq<Message>, renames: map<string, string>, f: Block -> seq<T>)
    requires forall b :: f(RenameUse(b, renames)) == f(b)
    ensures Select(Flat(RenameMessages(ms, renames)), f) == Select(Flat(ms), f)
  {
    if ms == [] {
    } else {
      var front, m := ms[..|ms| - 1], ms[|ms| - 1];
      RenameKeeps(front, renames, f);
      var out := RenameMessages(ms, renames);
      assert out[..|ms| - 1] == RenameMessages(front, renames);
      SelectConcat(Flat(front), m.content, f);
      SelectConcat(Flat(RenameMessages(front, renames)), RenameBlocks(m.content, renames), f);
      SelectPointwise(RenameBlocks(m.content, renames), m.content, f);
    }
  }

  lemma RenameKeepsCallers(ms: seq<Message>, renames: map<string, string>, answers: seq<string>)
    requires AnsweredByAssistant(ms, answers)
    ensures AnsweredByAssistant(RenameMessages(ms, renames), answers)
  {
    var out := RenameMessages(ms, renames);
    forall i | 0 <= i < |out| && Select(out[i].content, AnsweredUseOf(answers)) != []
      ensures out[i].role == Assistant
    {
      SelectPointwise(out[i].content, ms[i].content, AnsweredUseOf(answers));
    }
  }

  lemma RenameKeepsRepairable(ms: seq<Message>, renames: map<string, string>)
    requires Repairable(ms) && AnsweredByAssistant(ms, ResultIds(Flat(ms)))
    ensures var out := RenameMessages(ms, renames);
      Repairable(out) && AnsweredByAssistant(out, ResultIds(Flat(out)))
  {
    RenameKeepsIds(ms, renames);
    RenameKeepsCallers(ms, renames, ResultIds(Flat(ms)));
  }
}
