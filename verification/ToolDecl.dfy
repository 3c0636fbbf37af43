/** Repair of tool declarations: backend/ir/tooldecl.go.

    Names are squeezed into the character set and length every protocol accepts, blank and
    repeated declarations are dropped, and each rename is carried into `tool_choice` and
    into the recorded calls.  SHA-256 is a parameter: all that matters of it is that it
    yields hexadecimal digits. */
module ToolDecl {
  import opened Ir

  const MAX_NAME_LEN := 64
  const HASH_LEN := 4

  type Nibble = n: int | 0 <= n < 16

  /** The first four hexadecimal digits of a digest. */
  datatype ShortHash = ShortHash(a: Nibble, b: Nibble, c: Nibble, d: Nibble)

  type Hasher = string -> ShortHash

  function HexDigit(n: Nibble): (c: char)
    ensures IsLegal(c)
  {
    if n < 10 then '0' + (n as char) else 'a' + ((n - 10) as char)
  }

  function Suffix(h: ShortHash): string {
    [HexDigit(h.a), HexDigit(h.b), HexDigit(h.c), HexDigit(h.d)]
  }

  predicate IsLegal(c: char) {
    'a' <= c <= 'z' || 'A' <= c <= 'Z' || '0' <= c <= '9' || c == '_' || c == '-' || c == '.'
  }

  predicate IsLegalName(name: string) {
    |name| <= MAX_NAME_LEN && forall i :: 0 <= i < |name| ==> IsLegal(name[i])
  }

  /** The white space that `strings.TrimSpace` removes. */
  predicate IsSpace(c: char) {
    || '\t' <= c <= '\r' || c == ' ' || c == '\U{85}' || c == '\U{A0}' || c == '\U{1680}'
    || '\U{2000}' <= c <= '\U{200A}' || c == '\U{2028}' || c == '\U{2029}'
    || c == '\U{202F}' || c == '\U{205F}' || c == '\U{3000}'
  }

  /** The two classes of characters, by code point. */
  lemma CharacterClasses(c: char)
    ensures var n := c as int;
      && (IsLegal(c) <==> 48 <= n <= 57 || 65 <= n <= 90 || 97 <= n <= 122 || n == 45 || n == 46 || n == 95)
      && (IsSpace(c) <==> 9 <= n <= 13 || 8192 <= n <= 8202
                          || n in {32, 133, 160, 5760, 8232, 8233, 8239, 8287, 12288})
  {}

  predicate IsBlank(s: string) {
    forall i :: 0 <= i < |s| ==> IsSpace(s[i])
  }

  function Squash(name: string): (out: string)
    ensures |out| == |name|
    ensures forall i :: 0 <= i < |name| ==> out[i] == if IsLegal(name[i]) then name[i] else '_'
  {
    seq(|name|, i requires 0 <= i < |name| => if IsLegal(name[i]) then name[i] else '_')
  }

  function SanitizeName(name: string, hash: Hasher): string {
    var out := Squash(name);
    if |out| <= MAX_NAME_LEN then out
    else out[..MAX_NAME_LEN - HASH_LEN - 1] + "_" + Suffix(hash(name))
  }

  /** A sanitized name is always acceptable, and acceptable names are left alone.  Together
      they make the rewrite idempotent, which is why one rename pass is enough. */
  lemma SanitizeNameIsProjection(name: string, hash: Hasher)
    ensures IsLegalName(SanitizeName(name, hash))
    ensures SanitizeName(name, hash) == name <==> IsLegalName(name)
    ensures SanitizeName(SanitizeName(name, hash), hash) == SanitizeName(name, hash)
  {
    var out := SanitizeName(name, hash);
    forall i | 0 <= i < |out| ensures IsLegal(out[i]) {
      if |name| > MAX_NAME_LEN && i >= MAX_NAME_LEN - HASH_LEN {
        assert out[i] == Suffix(hash(name))[i - (MAX_NAME_LEN - HASH_LEN)];
      }
    }
    assert Squash(out) == out;
    if IsLegalName(name) {
      assert Squash(name) == name;
    }
  }

  datatype Note = BlankDropped | Renamed(was: string, now: string) | RepeatDropped(name: string)

  /** The loop state of `governToolDecls`. */
  datatype Governed = Governed(
    kept: seq<Tool>, renames: map<string, string>, seen: set<string>, notes: seq<Note>)

  function GovernOne(g: Governed, t: Tool, hash: Hasher): Governed {
    if IsBlank(t.name) then g.(notes := g.notes + [BlankDropped])
    else
      var name := SanitizeName(t.name, hash);
      var r := if name != t.name
               then g.(notes := g.notes + [Renamed(t.name, name)], renames := g.renames[t.name := name])
               else g;
      if name in g.seen then r.(notes := r.notes + [RepeatDropped(name)])
      else r.(seen := r.seen + {name}, kept := r.kept + [t.(name := name)])
  }

  function Govern(tools: seq<Tool>, hash: Hasher): Governed {
    if tools == [] then Governed([], map[], {}, [])
    else GovernOne(Govern(tools[..|tools| - 1], hash), tools[|tools| - 1], hash)
  }

  predicate Declares(tools: seq<Tool>, name: string) {
    exists i :: 0 <= i < |tools| && tools[i].name == name
  }

  function Renamed'(name: string, renames: map<string, string>): string {
    if name in renames then renames[name] else name
  }

  function RenameUse(b: Block, renames: map<string, string>): Block {
    if b.kind == BlockToolUse && b.toolUse.Some? && b.toolUse.value.name in renames
    then b.(toolUse := Some(b.toolUse.value.(name := renames[b.toolUse.value.name])))
    else b
  }

  function RenameBlocks(bs: seq<Block>, renames: map<string, string>): (out: seq<Block>)
    ensures |out| == |bs|
    ensures forall i :: 0 <= i < |bs| ==> out[i] == RenameUse(bs[i], renames)
  {
    seq(|bs|, i requires 0 <= i < |bs| => RenameUse(bs[i], renames))
  }

  function RenameMessages(ms: seq<Message>, renames: map<string, string>): (out: seq<Message>)
    ensures |out| == |ms|
    ensures forall i :: 0 <= i < |ms| ==> out[i] == ms[i].(content := RenameBlocks(ms[i].content, renames))
  {
    seq(|ms|, i requires 0 <= i < |ms| => ms[i].(content := RenameBlocks(ms[i].content, renames)))
  }

  function RenameChoice(choice: Option<ToolChoice>, renames: map<string, string>): Option<ToolChoice> {
    if choice.Some? && choice.value.mode == ModeTool && choice.value.name in renames
    then Some(choice.value.(name := renames[choice.value.name]))
    else choice
  }

  /** The declarations kept so far are legal and distinct, and `seen` lists their names. */
  ghost predicate KeptInv(kept: seq<Tool>, seen: set<string>) {
    && (forall i :: 0 <= i < |kept| ==> kept[i].name in seen && IsLegalName(kept[i].name))
    && (forall i, j :: 0 <= i < j < |kept| ==> kept[i].name != kept[j].name)
    && (forall name :: name in seen ==> Declares(kept, name))
  }

  ghost predicate SettledAt(g: Governed, name: string, hash: Hasher) {
    && SanitizeName(name, hash) in g.seen && (name in g.renames <==> !IsLegalName(name))
  }

  /** Each declaration read so far is settled, and only illegal names are rewritten. */
  ghost predicate RenamesInv(g: Governed, tools: seq<Tool>, hash: Hasher) {
    && (forall i :: 0 <= i < |tools| && !IsBlank(tools[i].name) ==> SettledAt(g, tools[i].name, hash))
    && (forall name :: name in g.renames ==>
          g.renames[name] == SanitizeName(name, hash) && !IsLegalName(name))
  }

  lemma KeptOneMore(kept: seq<Tool>, seen: set<string>, t: Tool)
    requires KeptInv(kept, seen) && IsLegalName(t.name) && t.name !in seen
    ensures KeptInv(kept + [t], seen + {t.name})
  {
    var kept' := kept + [t];
    forall name | name in seen + {t.name} ensures Declares(kept', name) {
      if name in seen {
        var i :| 0 <= i < |kept| && kept[i].name == name;
        assert kept'[i].name == name;
      } else {
        assert kept'[|kept|].name == name;
      }
    }
  }

  lemma GovernKeepsKept(g: Governed, t: Tool, hash: Hasher)
    requires KeptInv(g.kept, g.seen)
    ensures var r := GovernOne(g, t, hash); KeptInv(r.kept, r.seen)
  {
    SanitizeNameIsProjection(t.name, hash);
    if !IsBlank(t.name) && SanitizeName(t.name, hash) !in g.seen {
      KeptOneMore(g.kept, g.seen, t.(name := SanitizeName(t.name, hash)));
    }
  }

  lemma RenamesOneMore(g: Governed, tools: seq<Tool>, t: Tool, hash: Hasher)
    requires RenamesInv(g, tools, hash)
    ensures RenamesInv(GovernOne(g, t, hash), tools + [t], hash)
  {
    SanitizeNameIsProjection(t.name, hash);
    var r, all := GovernOne(g, t, hash), tools + [t];
    forall i | 0 <= i < |all| && !IsBlank(all[i].name) ensures SettledAt(r, all[i].name, hash) {
      if i < |tools| { assert SettledAt(g, tools[i].name, hash); }
    }
  }

  lemma {:induction false} GovernKeepsInv(tools: seq<Tool>, hash: Hasher)
    ensures var g := Govern(tools, hash); KeptInv(g.kept, g.seen) && RenamesInv(g, tools, hash)
  {
    if tools == [] {
    } else {
      var front, t := tools[..|tools| - 1], tools[|tools| - 1];
      GovernKeepsInv(front, hash);
      GovernKeepsKept(Govern(front, hash), t, hash);
      RenamesOneMore(Govern(front, hash), front, t, hash);
      assert tools == front + [t];
    }
  }

  /** Declared names end up pairwise distinct and legal, and every non-blank name that was
      declared still resolves to a declaration after a single rename. */
  lemma GovernedDeclarations(tools: seq<Tool>, hash: Hasher)
    ensures var g := Govern(tools, hash);
      && (forall i :: 0 <= i < |g.kept| ==> IsLegalName(g.kept[i].name))
      && (forall i, j :: 0 <= i < j < |g.kept| ==> g.kept[i].name != g.kept[j].name)
      && (forall i :: 0 <= i < |tools| && !IsBlank(tools[i].name) ==>
            Declares(g.kept, Renamed'(tools[i].name, g.renames)))
      && (forall name :: name in g.renames ==> g.renames[name] !in g.renames)
  {
    var g := Govern(tools, hash);
    GovernKeepsInv(tools, hash);
    forall i | 0 <= i < |tools| && !IsBlank(tools[i].name)
      ensures Declares(g.kept, Renamed'(tools[i].name, g.renames))
    {
      SanitizeNameIsProjection(tools[i].name, hash);
      assert SettledAt(g, tools[i].name, hash);
      assert Renamed'(tools[i].name, g.renames) == SanitizeName(tools[i].name, hash);
    }
    forall name | name in g.renames ensures g.renames[name] !in g.renames {
      SanitizeNameIsProjection(name, hash);
    }
  }

  lemma {:induction false} NoNotesNoChange(tools: seq<Tool>, hash: Hasher)
    requires Govern(tools, hash).notes == []
    ensures Govern(tools, hash).kept == tools && Govern(tools, hash).renames == map[]
  {
    if tools == [] {
    } else {
      var front, t := tools[..|tools| - 1], tools[|tools| - 1];
      NoNotesNoChange(front, hash);
      assert tools == front + [t];
    }
  }

  /** Declarations that every upstream accepts. */
  predicate Sound(tools: seq<Tool>) {
    && (forall i :: 0 <= i < |tools| ==> !IsBlank(tools[i].name) && IsLegalName(tools[i].name))
    && (forall i, j :: 0 <= i < j < |tools| ==> tools[i].name != tools[j].name)
  }

  lemma SoundMore(front: seq<Tool>, t: Tool)
    ensures Sound(front + [t])
       <==> Sound(front) && !IsBlank(t.name) && IsLegalName(t.name) && !Declares(front, t.name)
  {
    var tools := front + [t];
    assert tools[|front|] == t && forall i :: 0 <= i < |front| ==> tools[i] == front[i];
    if Declares(front, t.name) {
      var i :| 0 <= i < |front| && front[i].name == t.name;
      assert tools[i].name == tools[|front|].name;
    }
  }

  lemma SilentStep(g: Governed, t: Tool, hash: Hasher)
    requires KeptInv(g.kept, g.seen)
    ensures GovernOne(g, t, hash).notes == []
       <==> g.notes == [] && !IsBlank(t.name) && IsLegalName(t.name) && !Declares(g.kept, t.name)
  {
    SanitizeNameIsProjection(t.name, hash);
  }

  /** Nothing is noted exactly when there is nothing to repair. */
  lemma {:induction false} SilentExactlyWhenSound(tools: seq<Tool>, hash: Hasher)
    ensures Govern(tools, hash).notes == [] <==> Sound(tools)
  {
    if tools == [] {
    } else {
      var front, t := tools[..|tools| - 1], tools[|tools| - 1];
      SilentExactlyWhenSound(front, hash);
      GovernKeepsInv(front, hash);
      SilentStep(Govern(front, hash), t, hash);
      assert tools == front + [t];
      SoundMore(front, t);
      if Sound(front) { NoNotesNoChange(front, hash); }
    }
  }

  /** Declaration `i` is the first of its name, counting names as they come out. */
  ghost predicate FirstOfItsName(tools: seq<Tool>, i: nat, hash: Hasher)
    requires i < |tools|
  {
    && !IsBlank(tools[i].name)
    && forall j :: 0 <= j < i && !IsBlank(tools[j].name) ==>
         SanitizeName(tools[j].name, hash) != SanitizeName(tools[i].name, hash)
  }

  ghost predicate Rising(picks: seq<nat>, n: nat) {
    && (forall k :: 0 <= k < |picks| ==> picks[k] < n)
    && forall k, l :: 0 <= k < l < |picks| ==> picks[k] < picks[l]
  }

  ghost predicate Picked(kept: seq<Tool>, tools: seq<Tool>, picks: seq<nat>, hash: Hasher)
    requires forall k :: 0 <= k < |picks| ==> picks[k] < |tools|
  {
    && |kept| == |picks|
    && (forall k :: 0 <= k < |picks| ==>
          && FirstOfItsName(tools, picks[k], hash)
          && kept[k] == tools[picks[k]].(name := SanitizeName(tools[picks[k]].name, hash)))
    && forall i :: 0 <= i < |tools| && FirstOfItsName(tools, i, hash) ==> i in picks
  }

  lemma FirstsStayFirst(front: seq<Tool>, t: Tool, i: nat, hash: Hasher)
    requires i < |front|
    ensures FirstOfItsName(front + [t], i, hash) <==> FirstOfItsName(front, i, hash)
  {
    assert forall j :: 0 <= j <= i ==> (front + [t])[j] == front[j];
  }

  lemma PickedMore(kept: seq<Tool>, front: seq<Tool>, picks: seq<nat>, t: Tool, hash: Hasher)
    requires Rising(picks, |front|) && Picked(kept, front, picks, hash)
    ensures var tools, n := front + [t], |front|;
      if FirstOfItsName(tools, n, hash)
      then Rising(picks + [n], n + 1)
           && Picked(kept + [t.(name := SanitizeName(t.name, hash))], tools, picks + [n], hash)
      else Rising(picks, n + 1) && Picked(kept, tools, picks, hash)
  {
    var tools, n := front + [t], |front|;
    var more := if FirstOfItsName(tools, n, hash) then picks + [n] else picks;
    forall i | 0 <= i < n ensures FirstOfItsName(tools, i, hash) <==> FirstOfItsName(front, i, hash) {
      FirstsStayFirst(front, t, i, hash);
    }
    assert forall k :: 0 <= k < |picks| ==> tools[picks[k]] == front[picks[k]];
    forall i | 0 <= i < |tools| && FirstOfItsName(tools, i, hash) ensures i in more {
      if i < n { assert i in picks; } else { assert more[|picks|] == n; }
    }
  }

  /** The first declaration of each name is kept, in order, whole but for its name. */
  lemma {:induction false} FirstDeclarationsStay(tools: seq<Tool>, hash: Hasher) returns (picks: seq<nat>)
    ensures Rising(picks, |tools|) && Picked(Govern(tools, hash).kept, tools, picks, hash)
  {
    if tools == [] {
      picks := [];
    } else {
      var n := |tools| - 1;
      var before := FirstDeclarationsStay(tools[..n], hash);
      PickedMore(Govern(tools[..n], hash).kept, tools[..n], before, tools[n], hash);
      assert tools == tools[..n] + [tools[n]];
      LastIsFirst(tools, hash);
      picks := if FirstOfItsName(tools, n, hash) then before + [n] else before;
    }
  }

  lemma LastIsFirst(tools: seq<Tool>, hash: Hasher)
    requires tools != []
    ensures var n := |tools| - 1;
      FirstOfItsName(tools, n, hash)
      <==> !IsBlank(tools[n].name) && SanitizeName(tools[n].name, hash) !in Govern(tools[..n], hash).seen
  {
    var n := |tools| - 1;
    var seen, name := Govern(tools[..n], hash).seen, SanitizeName(tools[n].name, hash);
    GovernKeepsInv(tools[..n], hash);
    if name in seen {
      SeenIsRead(tools[..n], name, hash);
      var j :| 0 <= j < n && !IsBlank(tools[..n][j].name) && SanitizeName(tools[..n][j].name, hash) == name;
      assert tools[j] == tools[..n][j];
    }
    forall j | 0 <= j < n && !IsBlank(tools[j].name) ensures SanitizeName(tools[j].name, hash) in seen {
      assert SettledAt(Govern(tools[..n], hash), tools[..n][j].name, hash);
    }
  }

  lemma {:induction false} SeenIsRead(tools: seq<Tool>, name: string, hash: Hasher)
    requires name in Govern(tools, hash).seen
    ensures exists j :: 0 <= j < |tools| && !IsBlank(tools[j].name) && SanitizeName(tools[j].name, hash) == name
  {
    if tools == [] {
      assert false;
    } else {
      var n := |tools| - 1;
      if name in Govern(tools[..n], hash).seen {
        SeenIsRead(tools[..n], name, hash);
        var j :| 0 <= j < n && !IsBlank(tools[..n][j].name) && SanitizeName(tools[..n][j].name, hash) == name;
        assert tools[j] == tools[..n][j];
      } else {
        assert SanitizeName(tools[n].name, hash) == name;
      }
    }
  }

  /** What a sanitized name reads, character by character: up to the limit, or up to the digest
      of a name beyond it, every legal character stands where it stood. */
  lemma SanitizedReads(name: string, hash: Hasher, i: nat)
    requires i < |name| && (|name| > MAX_NAME_LEN ==> i < MAX_NAME_LEN - HASH_LEN - 1)
    ensures var out := SanitizeName(name, hash);
      && |out| == (if |name| > MAX_NAME_LEN then MAX_NAME_LEN else |name|)
      && out[i] == if IsLegal(name[i]) then name[i] else '_'
  {
    if |name| > MAX_NAME_LEN { assert SanitizeName(name, hash)[i] == Squash(name)[i]; }
  }

  /** Cutting never makes two names one as long as their digests differ. */
  lemma LongNamesStayApart(a: string, b: string, hash: Hasher)
    requires |a| > MAX_NAME_LEN && |b| > MAX_NAME_LEN && hash(a) != hash(b)
    ensures SanitizeName(a, hash) != SanitizeName(b, hash)
  {
    var n := MAX_NAME_LEN - HASH_LEN;
    var x, y := SanitizeName(a, hash), SanitizeName(b, hash);
    assert x[n..] == Suffix(hash(a)) && y[n..] == Suffix(hash(b));
    if x == y {
      var s, t := Suffix(hash(a)), Suffix(hash(b));
      assert s[0] == t[0] && s[1] == t[1] && s[2] == t[2] && s[3] == t[3];
      DigitsDiffer(hash(a).a, hash(b).a);
      DigitsDiffer(hash(a).b, hash(b).b);
      DigitsDiffer(hash(a).c, hash(b).c);
      DigitsDiffer(hash(a).d, hash(b).d);
    }
  }

  lemma DigitsDiffer(m: Nibble, n: Nibble)
    ensures HexDigit(m) == HexDigit(n) ==> m == n
  {}

  /** A rename touches the name of a call and nothing else. */
  lemma RenamingKeepsTheRest(b: Block, renames: map<string, string>)
    ensures var out := RenameUse(b, renames);
      && out.(toolUse := b.toolUse) == b && (out.toolUse.Some? <==> b.toolUse.Some?)
      && (b.toolUse.Some? ==> out.toolUse.value.(name := b.toolUse.value.name) == b.toolUse.value)
      && (b.kind != BlockToolUse ==> out == b)
  {}

  /** A name in use refers to a declaration, directly or not at all. */
  predicate Resolves(name: string, tools: seq<Tool>) {
    !IsBlank(name) && Declares(tools, name)
  }

  /** Every recorded call that named a declared tool still names one, and so does a named
      `tool_choice`. */
  lemma ReferencesFollow(tools: seq<Tool>, hash: Hasher, b: Block, choice: Option<ToolChoice>)
    ensures var g := Govern(tools, hash);
      && (b.kind == BlockToolUse && b.toolUse.Some? && Resolves(b.toolUse.value.name, tools) ==>
            Declares(g.kept, RenameUse(b, g.renames).toolUse.value.name))
      && (choice.Some? && choice.value.mode == ModeTool && Resolves(choice.value.name, tools) ==>
            Declares(g.kept, RenameChoice(choice, g.renames).value.name))
      && RenameUse(RenameUse(b, g.renames), g.renames) == RenameUse(b, g.renames)
  {
    GovernedDeclarations(tools, hash);
  }

  /** `governToolDecls`: rewrites the request only when something was wrong with it. */
  method GovernToolDecls(r: Request, hash: Hasher) returns (notes: seq<Note>)
    modifies r`tools, r`messages, r`toolChoice
    ensures var g := Govern(old(r.tools), hash);
      && notes == g.notes
      && r.tools == g.kept
      && r.messages == RenameMessages(old(r.messages), g.renames)
      && r.toolChoice == RenameChoice(old(r.toolChoice), g.renames)
  {
    if |r.tools| == 0 {
      RenameByNothing(r.messages, r.toolChoice);
      return [];
    }
    var kept, renames, seen: set<string> := [], map[], {};
    notes := [];
    for k := 0 to |r.tools|
      invariant Governed(kept, renames, seen, notes) == Govern(r.tools[..k], hash)
      invariant r.tools == old(r.tools) && r.messages == old(r.messages) && r.toolChoice == old(r.toolChoice)
    {
      var t := r.tools[k];
      assert r.tools[..k + 1][..k] == r.tools[..k];
      if IsBlank(t.name) {
        notes := notes + [BlankDropped];
        continue;
      }
      var name := SanitizeName(t.name, hash);
      if name != t.name {
        notes := notes + [Renamed(t.name, name)];
        renames := renames[t.name := name];
      }
      if name in seen {
        notes := notes + [RepeatDropped(name)];
        continue;
      }
      seen := seen + {name};
      kept := kept + [t.(name := name)];
    }
    assert r.tools[..|r.tools|] == r.tools;
    if |notes| == 0 {
      NoNotesNoChange(r.tools, hash);
      RenameByNothing(r.messages, r.toolChoice);
      return;
    }
    r.tools := kept;
    ApplyToolRenames(r, renames);
  }

  lemma RenameByNothing(ms: seq<Message>, choice: Option<ToolChoice>)
    ensures RenameMessages(ms, map[]) == ms && RenameChoice(choice, map[]) == choice
  {
    forall i | 0 <= i < |ms| ensures RenameMessages(ms, map[])[i] == ms[i] {
      assert RenameBlocks(ms[i].content, map[]) == ms[i].content;
    }
  }

  /** `applyToolRenames`: one pass over the named choice and over every recorded call. */
  method ApplyToolRenames(r: Request, renames: map<string, string>)
    modifies r`messages, r`toolChoice
    ensures r.messages == RenameMessages(old(r.messages), renames)
    ensures r.toolChoice == RenameChoice(old(r.toolChoice), renames)
  {
    if r.toolChoice.Some? && r.toolChoice.value.mode == ModeTool {
      var choice := r.toolChoice.value;
      if choice.name in renames {
        r.toolChoice := Some(choice.(name := renames[choice.name]));
      }
    }
    for mi := 0 to |r.messages|
      invariant |r.messages| == old(|r.messages|)
      invariant r.toolChoice == RenameChoice(old(r.toolChoice), renames)
      invariant forall k :: 0 <= k < mi ==> r.messages[k] == RenameMessages(old(r.messages), renames)[k]
      invariant forall k :: mi <= k < |r.messages| ==> r.messages[k] == old(r.messages)[k]
    {
      var content := RenameInPlace(r.messages[mi].content, renames);
      r.messages := r.messages[mi := r.messages[mi].(content := content)];
    }
  }

  method RenameInPlace(blocks: seq<Block>, renames: map<string, string>) returns (content: seq<Block>)
    ensures content == RenameBlocks(blocks, renames)
  {
    content := blocks;
    for bi := 0 to |content|
      invariant |content| == |blocks|
      invariant forall k :: 0 <= k < bi ==> content[k] == RenameUse(blocks[k], renames)
      invariant forall k :: bi <= k < |content| ==> content[k] == blocks[k]
    {
      var b := content[bi];
      if b.kind == BlockToolUse && b.toolUse.Some? {
        var use := b.toolUse.value;
        if use.name in renames {
          content := content[bi := b.(toolUse := Some(use.(name := renames[use.name])))];
        }
      }
    }
  }
}
