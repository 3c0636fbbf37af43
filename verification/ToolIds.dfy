/** Bringing the ids of tool calls within a protocol's limit, on both sides of the pairing:
    backend/codec/shape_toolid.go. */
module ToolIds {
  import opened Ir
  import opened Seqs
  import opened Blocks
  import opened Pairing

  /** `shortenToolID` for the protocol's limit: an id and a salt give a candidate. */
  type Shortener = (string, nat) -> string

  const MAX_RETRIES := 16

  /** The first candidate that is free, or the id itself when all are taken. */
  function UniqueShort(id: string, salt: nat, taken: set<string>, shorten: Shortener): string
    decreases MAX_RETRIES - salt
  {
    if salt >= MAX_RETRIES then id
    else
      var short := shorten(id, salt);
      if short == id || short !in taken then short else UniqueShort(id, salt + 1, taken, shorten)
  }

  /** The renames so far, and the ids that are spoken for. */
  datatype Renaming = Renaming(to: map<string, string>, taken: set<string>)

  predicate Settled(to: map<string, string>, id: string) { id in to && to[id] != "" }

  function NewId(to: map<string, string>, id: string): string { if Settled(to, id) then to[id] else id }

  function Visit(r: Renaming, id: string, max: int, shorten: Shortener): Renaming {
    if |id| <= max || Settled(r.to, id) then r
    else
      var short := UniqueShort(id, 0, r.taken, shorten);
      if short == id then r else Renaming(r.to[id := short], r.taken + {short})
  }

  function VisitAll(r: Renaming, ids: seq<string>, max: int, shorten: Shortener): Renaming {
    if ids == [] then r else Visit(VisitAll(r, ids[..|ids| - 1], max, shorten), ids[|ids| - 1], max, shorten)
  }

  function Members(ids: seq<string>): set<string> { set id | id in ids }

  function IdRenames(ids: seq<string>, max: int, shorten: Shortener): map<string, string> {
    VisitAll(Renaming(map[], Members(ids)), ids, max, shorten).to
  }

  function WithId(b: Block, to: map<string, string>): Block {
    if IsUse(b) then b.(toolUse := Some(b.toolUse.value.(id := NewId(to, UseId(b)))))
    else if IsResult(b) then b.(toolResult := Some(b.toolResult.value.(toolUseId := NewId(to, ResultId(b)))))
    else b
  }

  function WithIds(bs: seq<Block>, to: map<string, string>): (out: seq<Block>)
    ensures |out| == |bs| && forall i :: 0 <= i < |bs| ==> out[i] == WithId(bs[i], to)
  {
    seq(|bs|, i requires 0 <= i < |bs| => WithId(bs[i], to))
  }

  function WithIdsAll(ms: seq<Message>, to: map<string, string>): (out: seq<Message>)
    ensures |out| == |ms| && forall i :: 0 <= i < |ms| ==> out[i] == ms[i].(content := WithIds(ms[i].content, to))
  {
    seq(|ms|, i requires 0 <= i < |ms| => ms[i].(content := WithIds(ms[i].content, to)))
  }

  /** Without a limit nothing is touched. */
  function ShapedIds(ms: seq<Message>, max: int, shorten: Shortener): seq<Message> {
    if max <= 0 then ms else WithIdsAll(ms, IdRenames(UseIds(Flat(ms)), max, shorten))
  }

  // ----- as the program does it -----

  method FindShort(id: string, taken: set<string>, shorten: Shortener) returns (short: string)
    ensures short == UniqueShort(id, 0, taken, shorten)
  {
    for salt := 0 to MAX_RETRIES
      invariant UniqueShort(id, salt, taken, shorten) == UniqueShort(id, 0, taken, shorten)
    {
      short := shorten(id, salt);
      if short == id || short !in taken {
        return;
      }
    }
    short := id;
  }

  method CollectRenames(ms: seq<Message>, max: int, shorten: Shortener) returns (to: map<string, string>)
    ensures to == IdRenames(UseIds(Flat(ms)), max, shorten)
  {
    ghost var ids := UseIds(Flat(ms));
    var taken := TakenIds(ms);
    to := map[];
    for mi := 0 to |ms|
      invariant Renaming(to, taken) == VisitAll(Renaming(map[], Members(ids)), UseIds(Flat(ms[..mi])), max, shorten)
    {
      FlatOneMore(ms, mi);
      to, taken := VisitContent(ms[mi].content, Flat(ms[..mi]), to, taken, max, shorten, Members(ids));
    }
    assert ms[..|ms|] == ms;
  }

  method VisitContent(
      bs: seq<Block>, ghost before: seq<Block>, to0: map<string, string>, taken0: set<string>, max: int, shorten: Shortener,
      ghost used: set<string>)
    returns (to: map<string, string>, taken: set<string>)
    requires Renaming(to0, taken0) == VisitAll(Renaming(map[], used), UseIds(before), max, shorten)
    ensures Renaming(to, taken) == VisitAll(Renaming(map[], used), UseIds(before + bs), max, shorten)
  {
    to, taken := to0, taken0;
    ConcatNothing(before);
    assert bs[..0] == [];
    for bi := 0 to |bs|
      invariant Renaming(to, taken) == VisitAll(Renaming(map[], used), UseIds(before + bs[..bi]), max, shorten)
    {
      NextVisited(before, bs, bi);
      VisitMore(Renaming(map[], used), UseIds(before + bs[..bi]), bs[bi], max, shorten);
      if bs[bi].kind == BlockToolUse && bs[bi].toolUse.Some? {
        var id := bs[bi].toolUse.value.id;
        if |id| > max && !(id in to && to[id] != "") {
          var short := FindShort(id, taken, shorten);
          if short != id {
            to, taken := to[id := short], taken + {short};
          }
        }
      }
    }
    assert bs[..|bs|] == bs;
  }

  lemma NextVisited(before: seq<Block>, bs: seq<Block>, bi: nat)
    requires bi < |bs|
    ensures UseIds(before + bs[..bi + 1]) == UseIds(before + bs[..bi]) + UseOf(bs[bi])
  {
    OneMore(bs, bi);
    Associate(before, bs[..bi], [bs[bi]]);
    IdsConcat(before + bs[..bi], [bs[bi]]);
    IdsOne(bs[bi]);
  }

  lemma VisitMore(r: Renaming, ids: seq<string>, b: Block, max: int, shorten: Shortener)
    ensures VisitAll(r, ids + UseOf(b), max, shorten)
         == if IsUse(b) then Visit(VisitAll(r, ids, max, shorten), UseId(b), max, shorten) else VisitAll(r, ids, max, shorten)
  {
    if IsUse(b) {
      ConcatFront(ids, UseOf(b));
      ConcatNothing(ids);
    } else {
      ConcatNothing(ids);
    }
  }

  lemma FlatOneMore(ms: seq<Message>, mi: nat)
    requires mi < |ms|
    ensures Flat(ms[..mi + 1]) == Flat(ms[..mi]) + ms[mi].content
  {
    assert ms[..mi + 1][..mi] == ms[..mi];
  }

  method TakenIds(ms: seq<Message>) returns (taken: set<string>)
    ensures taken == Members(UseIds(Flat(ms)))
  {
    taken := {};
    for mi := 0 to |ms|
      invariant taken == Members(UseIds(Flat(ms[..mi])))
    {
      FlatOneMore(ms, mi);
      var bs := ms[mi].content;
      ghost var before := Flat(ms[..mi]);
      ConcatNothing(before);
      assert bs[..0] == [];
      for bi := 0 to |bs|
        invariant taken == Members(UseIds(before + bs[..bi]))
      {
        NextVisited(before, bs, bi);
        if bs[bi].kind == BlockToolUse && bs[bi].toolUse.Some? {
          taken := taken + {bs[bi].toolUse.value.id};
        }
      }
      assert bs[..|bs|] == bs;
    }
    assert ms[..|ms|] == ms;
  }

  method ShapeToolIds(req: Request, max: int, shorten: Shortener)
    modifies req`messages
    ensures req.messages == ShapedIds(old(req.messages), max, shorten)
  {
    if max <= 0 {
      return;
    }
    var to := CollectRenames(req.messages, max, shorten);
    if |to| == 0 {
      assert to == map[];
      NothingRenamed(req.messages);
      return;
    }
    ghost var was := req.messages;
    for mi := 0 to |req.messages|
      invariant |req.messages| == |was|
      invariant forall k :: 0 <= k < mi ==> req.messages[k] == WithIdsAll(was, to)[k]
      invariant forall k :: mi <= k < |was| ==> req.messages[k] == was[k]
    {
      var content := RenameInPlace(req.messages[mi].content, to);
      req.messages := req.messages[mi := req.messages[mi].(content := content)];
    }
    assert req.messages == WithIdsAll(was, to);
  }

  method RenameInPlace(bs: seq<Block>, to: map<string, string>) returns (out: seq<Block>)
    ensures out == WithIds(bs, to)
  {
    out := bs;
    for bi := 0 to |bs|
      invariant |out| == |bs|
      invariant forall k :: 0 <= k < bi ==> out[k] == WithId(bs[k], to)
      invariant forall k :: bi <= k < |bs| ==> out[k] == bs[k]
    {
      var b := out[bi];
      if b.kind == BlockToolUse && b.toolUse.Some? {
        var u := b.toolUse.value;
        if u.id in to && to[u.id] != "" {
          out := out[bi := b.(toolUse := Some(u.(id := to[u.id])))];
        }
      } else if b.kind == BlockToolResult && b.toolResult.Some? {
        var t := b.toolResult.value;
        if t.toolUseId in to && to[t.toolUseId] != "" {
          out := out[bi := b.(toolResult := Some(t.(toolUseId := to[t.toolUseId])))];
        }
      }
    }
    assert out == WithIds(bs, to);
  }

  lemma NothingRenamed(ms: seq<Message>)
    ensures WithIdsAll(ms, map[]) == ms
  {
    forall i | 0 <= i < |ms| ensures WithIdsAll(ms, map[])[i] == ms[i] {
      assert WithIds(ms[i].content, map[]) == ms[i].content;
    }
  }

  // ----- no two ids become one -----

  /** What replaces an id of `used` is none of them, and nothing else's replacement. */
  ghost predicate Apart(r: Renaming, used: set<string>) {
    && used <= r.taken && r.to.Keys <= used
    && (forall id :: id in r.to ==> r.to[id] in r.taken && r.to[id] !in used)
    && (forall a, b :: a in r.to && b in r.to && a != b ==> r.to[a] != r.to[b])
  }

  lemma {:induction false} ShortIsFree(id: string, salt: nat, taken: set<string>, shorten: Shortener)
    ensures var short := UniqueShort(id, salt, taken, shorten); short == id || short !in taken
    decreases MAX_RETRIES - salt
  {
    if salt < MAX_RETRIES { ShortIsFree(id, salt + 1, taken, shorten); }
  }

  lemma VisitKeepsApart(r: Renaming, id: string, max: int, shorten: Shortener, used: set<string>)
    requires Apart(r, used) && id in used
    ensures Apart(Visit(r, id, max, shorten), used)
  {
    ShortIsFree(id, 0, r.taken, shorten);
  }

  lemma {:induction false} AllApart(ids: seq<string>, max: int, shorten: Shortener, used: set<string>)
    requires forall id :: id in ids ==> id in used
    ensures Apart(VisitAll(Renaming(map[], used), ids, max, shorten), used)
  {
    if ids == [] {
    } else {
      AllApart(ids[..|ids| - 1], max, shorten, used);
      VisitKeepsApart(VisitAll(Renaming(map[], used), ids[..|ids| - 1], max, shorten), ids[|ids| - 1], max, shorten, used);
    }
  }

  function Mapped(ids: seq<string>, to: map<string, string>): (out: seq<string>)
    ensures |out| == |ids| && forall i :: 0 <= i < |ids| ==> out[i] == NewId(to, ids[i])
  {
    seq(|ids|, i requires 0 <= i < |ids| => NewId(to, ids[i]))
  }

  lemma MappedConcat(a: seq<string>, b: seq<string>, to: map<string, string>)
    ensures Mapped(a + b, to) == Mapped(a, to) + Mapped(b, to)
  {}

  lemma {:induction false} IdsMapped(bs: seq<Block>, to: map<string, string>)
    ensures UseIds(WithIds(bs, to)) == Mapped(UseIds(bs), to)
  {
    if bs == [] {
    } else {
      var front, b := bs[..|bs| - 1], bs[|bs| - 1];
      IdsMapped(front, to);
      FrontLast(bs);
      WithIdsMore(front, b, to);
      UseMapped(b, to);
      MappedConcat(UseIds(front), UseOf(b), to);
    }
  }

  lemma WithIdsMore(front: seq<Block>, b: Block, to: map<string, string>)
    ensures WithIds(front + [b], to) == WithIds(front, to) + [WithId(b, to)]
    ensures UseIds(front + [b]) == UseIds(front) + UseOf(b)
    ensures UseIds(WithIds(front + [b], to)) == UseIds(WithIds(front, to)) + UseOf(WithId(b, to))
  {
    assert WithIds(front + [b], to) == WithIds(front, to) + [WithId(b, to)];
    IdsConcat(front, [b]);
    IdsConcat(WithIds(front, to), [WithId(b, to)]);
    IdsOne(b);
    IdsOne(WithId(b, to));
  }

  lemma UseMapped(b: Block, to: map<string, string>)
    ensures UseOf(WithId(b, to)) == Mapped(UseOf(b), to)
  {}

  lemma {:induction false} FlatMapped(ms: seq<Message>, to: map<string, string>)
    ensures Flat(WithIdsAll(ms, to)) == WithIds(Flat(ms), to)
  {
    if ms == [] {
    } else {
      var n := |ms| - 1;
      FlatMapped(ms[..n], to);
      assert WithIdsAll(ms, to)[..n] == WithIdsAll(ms[..n], to);
      assert WithIds(Flat(ms[..n]) + ms[n].content, to) == WithIds(Flat(ms[..n]), to) + WithIds(ms[n].content, to);
    }
  }

  lemma {:induction false} PairedMapped(ms: seq<Message>, owed: seq<string>, to: map<string, string>)
    requires Paired(ms, owed)
    ensures Paired(WithIdsAll(ms, to), Mapped(owed, to))
  {
    if ms == [] {
    } else {
      var out := WithIdsAll(ms, to);
      IdsMapped(ms[0].content, to);
      PairedMapped(ms[1..], UseIds(ms[0].content), to);
      assert out[1..] == WithIdsAll(ms[1..], to);
      LeadMapped(ms[0], owed, to);
    }
  }

  lemma LeadMapped(m: Message, owed: seq<string>, to: map<string, string>)
    requires LeadsWith(m, owed)
    ensures LeadsWith(m.(content := WithIds(m.content, to)), Mapped(owed, to))
  {}

  lemma DistinctMapped(ids: seq<string>, to: map<string, string>)
    requires Distinct(ids) && forall a, b :: a in ids && b in ids && a != b ==> NewId(to, a) != NewId(to, b)
    ensures Distinct(Mapped(ids, to))
  {
    var out := Mapped(ids, to);
    forall i, j | 0 <= i < j < |out| ensures out[i] != out[j] { assert ids[i] in ids && ids[j] in ids && ids[i] != ids[j]; }
  }

  /** Whatever the shortener does, no two calls end up with one id. */
  lemma NeverMerged(ids: seq<string>, max: int, shorten: Shortener, a: string, b: string)
    requires a in ids && b in ids && a != b
    ensures var to := IdRenames(ids, max, shorten); NewId(to, a) != NewId(to, b)
  {
    AllApart(ids, max, shorten, Members(ids));
  }

  /** A repaired history stays one: calls and results are renamed alike, ids stay distinct and
      non-empty, for every shortener, however often its candidates collide. */
  lemma ShapedIdsStayCanonical(ms: seq<Message>, max: int, shorten: Shortener)
    requires Canonical(ms)
    ensures Canonical(ShapedIds(ms, max, shorten))
  {
    var ids := UseIds(Flat(ms));
    var to := IdRenames(ids, max, shorten);
    PairedMapped(ms, [], to);
    FlatMapped(ms, to);
    IdsMapped(Flat(ms), to);
    forall a, b | a in ids && b in ids && a != b ensures NewId(to, a) != NewId(to, b) { NeverMerged(ids, max, shorten, a, b); }
    DistinctMapped(ids, to);
  }

  lemma {:induction false} ShortFits(id: string, salt: nat, taken: set<string>, max: nat, shorten: Shortener)
    requires forall x, n :: |shorten(x, n)| <= max
    ensures var short := UniqueShort(id, salt, taken, shorten); short == id || |short| <= max
    decreases MAX_RETRIES - salt
  {
    if salt < MAX_RETRIES { ShortFits(id, salt + 1, taken, max, shorten); }
  }

  /** An id is left as it is, or comes within the limit; and only ids beyond it are touched. */
  lemma {:induction false} ShapedIdsFit(ids: seq<string>, used: set<string>, max: nat, shorten: Shortener, id: string)
    requires forall x, n :: |shorten(x, n)| <= max
    ensures var to := VisitAll(Renaming(map[], used), ids, max, shorten).to;
      NewId(to, id) == id || (|id| > max && |NewId(to, id)| <= max)
  {
    if ids == [] {
    } else {
      var r := VisitAll(Renaming(map[], used), ids[..|ids| - 1], max, shorten);
      ShapedIdsFit(ids[..|ids| - 1], used, max, shorten, id);
      ShortFits(ids[|ids| - 1], 0, r.taken, max, shorten);
    }
  }

  // ----- every id that can be shortened is -----

  /** Someone has this id: a call of the history, or one that was renamed. */
  ghost predicate HasOwner(to: map<string, string>, used: set<string>, id: string) {
    id == "" || id in used || exists a :: a in to && to[a] == id
  }

  /** No candidate before the n-th gives anything new or is free. */
  ghost predicate Passed(id: string, n: nat, to: map<string, string>, used: set<string>, shorten: Shortener) {
    forall k :: 0 <= k < n ==> shorten(id, k) != id && HasOwner(to, used, shorten(id, k))
  }

  /** The first candidate that comes out as `short`, the others before it having been passed. */
  ghost predicate FirstFit(id: string, short: string, n: nat, to: map<string, string>, used: set<string>, shorten: Shortener) {
    n < 16 && shorten(id, n) == short && Passed(id, n, to, used, shorten)
  }

  lemma {:induction false} ShortIsFound(id: string, salt: nat, taken: set<string>, shorten: Shortener) returns (n: nat)
    requires salt <= 16
    ensures salt <= n <= 16 && forall k :: salt <= k < n ==> shorten(id, k) != id && shorten(id, k) in taken
    ensures UniqueShort(id, salt, taken, shorten) == if n == 16 then id else shorten(id, n)
    decreases 16 - salt
  {
    n := salt;
    if salt < 16 && shorten(id, salt) != id && shorten(id, salt) in taken {
      n := ShortIsFound(id, salt + 1, taken, shorten);
    }
  }

  /** What is spoken for has an owner, and nobody loses his id again. */
  ghost predicate Owned(r: Renaming, used: set<string>) {
    forall x :: x in r.taken ==> HasOwner(r.to, used, x)
  }

  lemma VisitOwned(r: Renaming, id: string, max: int, shorten: Shortener, used: set<string>)
    requires Owned(r, used)
    ensures var q := Visit(r, id, max, shorten);
      Owned(q, used) && forall x :: HasOwner(r.to, used, x) ==> HasOwner(q.to, used, x)
  {
    var q := Visit(r, id, max, shorten);
    if q != r {
      forall x | HasOwner(r.to, used, x) ensures HasOwner(q.to, used, x) {
        if a :| a in r.to && r.to[a] == x && x != "" { assert a != id && q.to[a] == x; }
      }
      forall x | x in q.taken ensures HasOwner(q.to, used, x) {
        if x == q.to[id] { assert id in q.to; }
      }
    }
  }

  /** Where an id beyond the limit stands after the calls `ids`. */
  ghost predicate Shortened(to: map<string, string>, ids: seq<string>, used: set<string>, id: string, shorten: Shortener) {
    if id !in ids then id !in to
    else if id in to && to[id] != "" then exists n :: FirstFit(id, to[id], n, to, used, shorten)
    else StaysLong(to, used, id, shorten)
  }

  ghost predicate StaysLong(to: map<string, string>, used: set<string>, id: string, shorten: Shortener) {
    || Passed(id, 16, to, used, shorten)
    || (exists n :: FirstFit(id, id, n, to, used, shorten)) || exists n :: FirstFit(id, "", n, to, used, shorten)
  }

  lemma StillFits(id: string, short: string, n: nat, r: Renaming, q: Renaming, used: set<string>, shorten: Shortener)
    requires forall x :: HasOwner(r.to, used, x) ==> HasOwner(q.to, used, x)
    ensures Passed(id, n, r.to, used, shorten) ==> Passed(id, n, q.to, used, shorten)
    ensures FirstFit(id, short, n, r.to, used, shorten) ==> FirstFit(id, short, n, q.to, used, shorten)
  {}

  lemma StaysShortened(
      r: Renaming, q: Renaming, front: seq<string>, last: string, used: set<string>, id: string, shorten: Shortener)
    requires Shortened(r.to, front, used, id, shorten) && (id != last || (id in front && q == r))
    requires forall x :: HasOwner(r.to, used, x) ==> HasOwner(q.to, used, x)
    requires (id in q.to <==> id in r.to) && (id in r.to ==> q.to[id] == r.to[id])
    ensures Shortened(q.to, front + [last], used, id, shorten)
  {
    StillFits(id, "", 16, r, q, used, shorten);
    forall short, n | FirstFit(id, short, n, r.to, used, shorten) ensures FirstFit(id, short, n, q.to, used, shorten) {
      StillFits(id, short, n, r, q, used, shorten);
    }
  }

  lemma VisitShortens(r: Renaming, front: seq<string>, id: string, max: int, shorten: Shortener, used: set<string>)
    requires Owned(r, used) && |id| > max && Shortened(r.to, front, used, id, shorten)
    ensures Shortened(Visit(r, id, max, shorten).to, front + [id], used, id, shorten)
  {
    var q := Visit(r, id, max, shorten);
    VisitOwned(r, id, max, shorten, used);
    if Settled(r.to, id) {
      StaysShortened(r, q, front, id, used, id, shorten);
    } else {
      var n := ShortIsFound(id, 0, r.taken, shorten);
      assert Passed(id, n, r.to, used, shorten);
      StillFits(id, "", n, r, q, used, shorten);
      if n < 16 { assert FirstFit(id, shorten(id, n), n, q.to, used, shorten); }
    }
  }

  lemma {:induction false} VisitedShorten(ids: seq<string>, max: int, used: set<string>, id: string, shorten: Shortener)
    requires |id| > max
    ensures var r := VisitAll(Renaming(map[], used), ids, max, shorten);
      Owned(r, used) && Shortened(r.to, ids, used, id, shorten)
  {
    if ids == [] {
    } else {
      var front, last := ids[..|ids| - 1], ids[|ids| - 1];
      var r := VisitAll(Renaming(map[], used), front, max, shorten);
      VisitedShorten(front, max, used, id, shorten);
      VisitOwned(r, last, max, shorten, used);
      FrontLast(ids);
      if id == last {
        VisitShortens(r, front, id, max, shorten, used);
      } else {
        StaysShortened(r, Visit(r, last, max, shorten), front, last, used, id, shorten);
      }
    }
  }

  /** The id of a call beyond the limit gives way to the first of its sixteen candidates that is
      nobody's id, old or new.  It stays as it is only when there is none, or when the shortener
      gives it back, or nothing at all, before. */
  lemma LongIdsAreShortened(ms: seq<Message>, max: int, shorten: Shortener, id: string)
    requires id in UseIds(Flat(ms)) && |id| > max
    ensures var ids := UseIds(Flat(ms));
      var to := IdRenames(ids, max, shorten);
      if NewId(to, id) != id
      then NewId(to, id) !in ids && exists n :: FirstFit(id, NewId(to, id), n, to, Members(ids), shorten)
      else StaysLong(to, Members(ids), id, shorten)
  {
    var ids := UseIds(Flat(ms));
    VisitedShorten(ids, max, Members(ids), id, shorten);
    AllApart(ids, max, shorten, Members(ids));
  }

  /** But for the ids of calls and results, which are renamed alike, the history is the same; and
      without a limit it is the same altogether. */
  lemma OnlyIdsChange(ms: seq<Message>, max: int, shorten: Shortener, i: nat, j: nat)
    requires i < |ms| && j < |ms[i].content|
    ensures max <= 0 ==> ShapedIds(ms, max, shorten) == ms
    ensures |ShapedIds(ms, max, shorten)| == |ms|
    ensures var out, m := ShapedIds(ms, max, shorten)[i], ms[i];
      && out.(content := []) == m.(content := []) && |out.content| == |m.content|
      && var now, b := out.content[j], m.content[j];
         && now.(toolUse := None, toolResult := None) == b.(toolUse := None, toolResult := None)
         && (now.toolUse.Some? <==> b.toolUse.Some?) && (now.toolResult.Some? <==> b.toolResult.Some?)
         && (b.toolUse.Some? ==> now.toolUse.value.(id := "") == b.toolUse.value.(id := ""))
         && (b.toolResult.Some? ==> now.toolResult.value.(toolUseId := "") == b.toolResult.value.(toolUseId := ""))
  {
    if max > 0 {
      var to := IdRenames(UseIds(Flat(ms)), max, shorten);
      var b := ms[i].content[j];
      assert ShapedIds(ms, max, shorten)[i].content[j] == WithId(b, to);
      assert WithId(b, to).(toolUse := None, toolResult := None) == b.(toolUse := None, toolResult := None);
    }
  }

  lemma {:induction false} ResultsMapped(bs: seq<Block>, to: map<string, string>)
    ensures ResultIds(WithIds(bs, to)) == Mapped(ResultIds(bs), to)
  {
    if bs == [] {
    } else {
      var front, b := bs[..|bs| - 1], bs[|bs| - 1];
      ResultsMapped(front, to);
      FrontLast(bs);
      assert WithIds(bs, to) == WithIds(front, to) + [WithId(b, to)];
      IdsConcat(front, [b]);
      IdsConcat(WithIds(front, to), [WithId(b, to)]);
      IdsOne(b);
      IdsOne(WithId(b, to));
      MappedConcat(ResultIds(front), ResultOf(b), to);
    }
  }

  /** One renaming serves calls and results alike: whatever id a call and a result shared, they
      share its replacement. */
  lemma CallsAndResultsAlike(ms: seq<Message>, max: int, shorten: Shortener)
    requires max > 0
    ensures var ids, out := UseIds(Flat(ms)), Flat(ShapedIds(ms, max, shorten));
      var to := IdRenames(ids, max, shorten);
      && |UseIds(out)| == |ids| && (forall k :: 0 <= k < |ids| ==> UseIds(out)[k] == NewId(to, ids[k]))
      && |ResultIds(out)| == |ResultIds(Flat(ms))|
      && (forall k :: 0 <= k < |ResultIds(out)| ==> ResultIds(out)[k] == NewId(to, ResultIds(Flat(ms))[k]))
  {
    var to := IdRenames(UseIds(Flat(ms)), max, shorten);
    FlatMapped(ms, to);
    IdsMapped(Flat(ms), to);
    ResultsMapped(Flat(ms), to);
  }
}
