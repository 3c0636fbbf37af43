/** Which call a fragment belongs to, and what a call is announced with, read off the fragments
    alone: backend/codec/chatcompletions/decode_stream.go.

    `ChatSlots` keeps slots, two maps and a counter.  Here a call is what the fragments that
    reached it said, and where a fragment goes depends on ids and indices seen before. */
module ChatCalls {
  import opened Ir
  import opened Seqs
  import opened ChatSlots

  // ----- what the fragments of a call say -----

  /** A custom call has its name and its input in a place of their own. */
  function NameIn(f: Fragment): string { match f.custom case Some(c) => c.name case None => f.name }

  function InputIn(f: Fragment): string { match f.custom case Some(c) => c.input case None => f.arguments }

  predicate Reaches(moves: seq<Move>, i: nat, synth: SynthId)
    requires moves != []
  {
    Reached(moves, |moves| - 1, synth) == Some(i)
  }

  function LastFragment(moves: seq<Move>): Fragment
    requires moves != [] && moves[|moves| - 1].Deltas?
  {
    moves[|moves| - 1].fragment
  }

  /** The last name given. */
  function NameSaid(moves: seq<Move>, i: nat, synth: SynthId): string {
    if moves == [] then ""
    else if Reaches(moves, i, synth) && NameIn(LastFragment(moves)) != "" then NameIn(LastFragment(moves))
    else NameSaid(moves[..|moves| - 1], i, synth)
  }

  /** All the input, in order. */
  function InputSaid(moves: seq<Move>, i: nat, synth: SynthId): string {
    if moves == [] then ""
    else InputSaid(moves[..|moves| - 1], i, synth) + (if Reaches(moves, i, synth) then InputIn(LastFragment(moves)) else "")
  }

  /** Some fragment was of a custom call. */
  predicate CustomSaid(moves: seq<Move>, i: nat, synth: SynthId) {
    moves != []
    && ((Reaches(moves, i, synth) && (LastFragment(moves).isCustom || LastFragment(moves).custom.Some?))
        || CustomSaid(moves[..|moves| - 1], i, synth))
  }

  /** The id a call goes by: its own, or one made up from its name when it has none by the time
      the name is there. */
  function CallId(moves: seq<Move>, i: nat, synth: SynthId): string
    decreases |moves|, 1
  {
    if moves == [] then ""
    else
      var was := CallId(moves[..|moves| - 1], i, synth);
      if !Reaches(moves, i, synth) then was
      else if LastFragment(moves).id != "" then LastFragment(moves).id
      else if was == "" && NameSaid(moves, i, synth) != "" then synth(NameSaid(moves, i, synth), MadeUp(moves, synth))
      else was
  }

  /** How many ids were made up. */
  function MadeUp(moves: seq<Move>, synth: SynthId): nat
    decreases |moves|, 0
  {
    if moves == [] then 0
    else
      var front, r := moves[..|moves| - 1], Reached(moves, |moves| - 1, synth);
      MadeUp(front, synth)
      + (if r.Some? && LastFragment(moves).id == "" && CallId(front, r.value, synth) == ""
            && NameSaid(moves, r.value, synth) != "" then 1 else 0)
  }

  /** The slot holds what was said, and no more. */
  ghost predicate Tells(s: State, moves: seq<Move>, i: nat, synth: SynthId) {
    var slot, name := SlotAt(s, i), NameSaid(moves, i, synth);
    && slot.name == name && slot.id == CallId(moves, i, synth) && slot.custom == CustomSaid(moves, i, synth)
    && (slot.announced <==> name != "") && slot.pending == (if name == "" then InputSaid(moves, i, synth) else "")
    && (slot.announced ==> slot.id != "")
  }

  /** One fragment at its own slot. */
  lemma StepHere(s: State, f: Fragment, position: nat, synth: SynthId)
    requires Inv(s) && Synthesizes(synth) && !Refused(s, Where(f, position), f.id)
    ensures var i, t := Target(s, Where(f, position), f.id), Take(s, f, position, synth);
      var slot := FillSlot(SlotAt(s, i), f);
      var opens := !slot.announced && slot.name != "";
      var made := opens && slot.id == "";
      && t.next.callCounter == s.callCounter + (if made then 1 else 0) && !t.failed
      && SlotAt(t.next, i)
         == (if slot.announced then slot
             else if opens then slot.(id := if made then synth(slot.name, s.callCounter + 1) else slot.id,
                                      announced := true, pending := "")
             else slot.(pending := slot.pending + f.Input()))
  {
    TargetCarries(s, Where(f, position), f.id);
  }

  lemma StepElsewhere(s: State, f: Fragment, position: nat, synth: SynthId, i: nat)
    requires Inv(s) && (Refused(s, Where(f, position), f.id) || Target(s, Where(f, position), f.id) != i)
    ensures SlotAt(Take(s, f, position, synth).next, i) == SlotAt(s, i)
    ensures Refused(s, Where(f, position), f.id) ==> Take(s, f, position, synth).next == s
  {
    if !Refused(s, Where(f, position), f.id) { ElsewhereQuiet(s, f, position, synth, i); }
  }

  lemma ReachedNow(front: seq<Move>, move: Move, synth: SynthId)
    requires move.Deltas?
    ensures var s, n, id := Run(front, synth), Where(move.fragment, move.position), move.fragment.id;
      && Run(front + [move], synth) == Take(s, move.fragment, move.position, synth).next
      && Reached(front + [move], |front|, synth) == if Refused(s, n, id) then None else Some(Target(s, n, id))
  {
    assert (front + [move])[..|front|] == front;
  }

  /** What one more fragment adds to what its call said. */
  lemma SaidMore(front: seq<Move>, move: Move, synth: SynthId, i: nat)
    requires move.Deltas? && Reached(front + [move], |front|, synth) == Some(i)
    ensures var moves, f := front + [move], move.fragment;
      var name, was := if NameIn(f) != "" then NameIn(f) else NameSaid(front, i, synth), CallId(front, i, synth);
      && NameSaid(moves, i, synth) == name && InputSaid(moves, i, synth) == InputSaid(front, i, synth) + InputIn(f)
      && CustomSaid(moves, i, synth) == (f.isCustom || f.custom.Some? || CustomSaid(front, i, synth))
      && MadeUp(moves, synth) == MadeUp(front, synth) + (if f.id == "" && was == "" && name != "" then 1 else 0)
      && CallId(moves, i, synth)
         == if f.id != "" then f.id else if was == "" && name != "" then synth(name, MadeUp(moves, synth)) else was
  {
    assert (front + [move])[..|front|] == front;
  }

  lemma NextTells(front: seq<Move>, f: Fragment, position: nat, synth: SynthId, i: nat)
    requires Synthesizes(synth) && var s := Run(front, synth);
      Inv(s) && s.callCounter == MadeUp(front, synth) && Tells(s, front, i, synth)
    requires var s, n := Run(front, synth), Where(f, position);
      !Refused(s, n, f.id) && Target(s, n, f.id) == i
    ensures var moves := front + [Deltas(f, position)];
      Tells(Run(moves, synth), moves, i, synth) && Run(moves, synth).callCounter == MadeUp(moves, synth)
  {
    ReachedNow(front, Deltas(f, position), synth);
    SaidMore(front, Deltas(f, position), synth, i);
    StepHere(Run(front, synth), f, position, synth);
  }

  lemma {:induction false} RunTells(moves: seq<Move>, synth: SynthId, i: nat)
    requires Synthesizes(synth)
    ensures Tells(Run(moves, synth), moves, i, synth) && Run(moves, synth).callCounter == MadeUp(moves, synth)
    decreases |moves|
  {
    if moves == [] {
    } else {
      var front := moves[..|moves| - 1];
      RunTells(front, synth, i);
      RunKeeps(front, synth);
      FrontLast(moves);
      match moves[|front|]
      case OtherBlock =>
      case Deltas(f, position) =>
        var s, n := Run(front, synth), Where(f, position);
        if Reached(moves, |front|, synth) == Some(i) {
          NextTells(front, f, position, synth, i);
        } else {
          StepElsewhere(s, f, position, synth, i);
          if !Refused(s, n, f.id) {
            var there := Target(s, n, f.id);
            RunTells(front, synth, there);
            NextTells(front, f, position, synth, there);
          }
        }
    }
  }

  // ----- what is announced, and when -----

  /** What the last fragment makes the client hear.  The call opens with the first fragment at which
      it has a name: under the id and the name it goes by then, as custom if any of its fragments
      was, with all its input so far.  After that its input is handed on as it comes. */
  function Heard(moves: seq<Move>, i: nat, synth: SynthId): seq<Event>
    requires moves != [] && Reaches(moves, i, synth)
  {
    if NameSaid(moves[..|moves| - 1], i, synth) != "" then Input(i, InputIn(LastFragment(moves)))
    else if NameSaid(moves, i, synth) == "" then []
    else
      var kind := if CustomSaid(moves, i, synth) then ToolCustom else ToolFunction;
      var call := ToolUse(CallId(moves, i, synth), NameSaid(moves, i, synth), kind, "", "", "", "", "");
      [BlockStart(i, Some(Block(BlockToolUse, "", None, Some(call), None, None, None, None, None, None, [], "", "")))]
      + Input(i, InputSaid(moves, i, synth))
  }

  function Input(i: nat, text: string): seq<Event> { if text == "" then [] else [ToolInput(i, text)] }

  lemma StepSays(s: State, f: Fragment, position: nat, synth: SynthId)
    requires Inv(s) && Synthesizes(synth) && !Refused(s, Where(f, position), f.id)
    ensures var i, t := Target(s, Where(f, position), f.id), Take(s, f, position, synth);
      var slot := FillSlot(SlotAt(s, i), f);
      if slot.announced then t.events == Input(i, f.Input())
      else if slot.name == "" then t.events == []
      else
        var now := SlotAt(t.next, i);
        t.events == [BlockStart(i, Some(EmptyBlock(BlockToolUse).(toolUse :=
                       Some(NO_TOOL_USE.(id := now.id, name := now.name, kind := if now.custom then ToolCustom else ToolFunction)))))]
                    + Input(i, slot.pending + f.Input())
  {
    TargetCarries(s, Where(f, position), f.id);
  }

  /** Over any run, a fragment makes the client hear exactly that; one that is refused, nothing. */
  lemma CallsOpenAsTold(moves: seq<Move>, synth: SynthId)
    requires Synthesizes(synth) && moves != [] && moves[|moves| - 1].Deltas?
    ensures var front, r := moves[..|moves| - 1], Reached(moves, |moves| - 1, synth);
      Emitted(moves, synth) == Emitted(front, synth) + (if r.None? then [] else Heard(moves, r.value, synth))
  {
    var front, last := moves[..|moves| - 1], moves[|moves| - 1];
    var r, s := Reached(moves, |moves| - 1, synth), Run(front, synth);
    RunKeeps(front, synth);
    if r.Some? {
      RunTells(front, synth, r.value);
      RunTells(moves, synth, r.value);
      StepSays(s, last.fragment, last.position, synth);
    }
  }

  // ----- where a fragment goes -----

  /** The number under which a fragment comes: its index, or its place in the delta. */
  function Number(move: Move): int
    requires move.Deltas?
  {
    match move.fragment.index case Some(n) => n case None => move.position
  }

  /** The block that fragments of this id have reached. */
  function BlockOf(moves: seq<Move>, id: string, synth: SynthId): Option<nat> {
    if moves == [] then None
    else
      var r := Reached(moves, |moves| - 1, synth);
      if r.Some? && LastFragment(moves).id == id then r else BlockOf(moves[..|moves| - 1], id, synth)
  }

  /** The block that holds this number: the last one that opened under it, or the first that came
      under it. */
  function HolderOf(moves: seq<Move>, n: int, synth: SynthId): Option<nat>
    decreases |moves|, 0
  {
    if moves == [] then None
    else
      var front, last := moves[..|moves| - 1], moves[|moves| - 1];
      var was, r := HolderOf(front, n, synth), Reached(moves, |front|, synth);
      if r.Some? && Number(last) == n && (was.None? || Home(front, last, synth).None?) then r else was
  }

  /** Where a fragment belongs by what came before: with its id, wherever that was seen; without one
      that was seen, with the holder of its number, unless that goes by another id already. */
  function Home(front: seq<Move>, move: Move, synth: SynthId): Option<nat>
    requires move.Deltas?
    decreases |front|, 1
  {
    var id, known, holder := move.fragment.id, BlockOf(front, move.fragment.id, synth), HolderOf(front, Number(move), synth);
    if id != "" && known.Some? then known
    else if holder.Some? && (id == "" || CallId(front, holder.value, synth) in {"", id}) then holder
    else None
  }

  /** The numbers in use. */
  function NumbersOf(moves: seq<Move>, synth: SynthId): set<int> {
    if moves == [] then {}
    else
      NumbersOf(moves[..|moves| - 1], synth)
      + (if Reached(moves, |moves| - 1, synth).Some? then {Number(moves[|moves| - 1])} else {})
  }

  /** How many blocks there are, calls and others. */
  function BlocksOf(moves: seq<Move>, synth: SynthId): nat {
    if moves == [] then 0
    else
      var front, last := moves[..|moves| - 1], moves[|moves| - 1];
      BlocksOf(front, synth)
      + (if last.OtherBlock? || (Home(front, last, synth).None? && Reached(moves, |front|, synth).Some?) then 1 else 0)
  }

  ghost predicate HoldersMatch(s: State, moves: seq<Move>, synth: SynthId) {
    forall n :: HolderOf(moves, n, synth) == if n in s.toolSlots then Some(s.toolSlots[n]) else None
  }

  ghost predicate IdsMatch(s: State, moves: seq<Move>, synth: SynthId) {
    forall id :: id != "" ==> BlockOf(moves, id, synth) == if id in s.byId then Some(s.byId[id]) else None
  }

  /** The maps say what the run says. */
  ghost predicate Maps(s: State, moves: seq<Move>, synth: SynthId) {
    && HoldersMatch(s, moves, synth) && IdsMatch(s, moves, synth)
    && s.toolSlots.Keys == NumbersOf(moves, synth) && s.next == BlocksOf(moves, synth)
  }

  lemma RouteIsHome(front: seq<Move>, move: Move, synth: SynthId)
    requires Synthesizes(synth) && move.Deltas? && Inv(Run(front, synth)) && Maps(Run(front, synth), front, synth)
    ensures Route(Run(front, synth), Number(move), move.fragment.id) == Home(front, move, synth)
  {
    var s, holder := Run(front, synth), HolderOf(front, Number(move), synth);
    if holder.Some? { RunTells(front, synth, holder.value); }
  }

  /** What a fragment changes in the maps. */
  lemma StepMaps(s: State, f: Fragment, position: nat, synth: SynthId)
    requires Inv(s) && !Refused(s, Where(f, position), f.id)
    ensures var n, t := Where(f, position), Take(s, f, position, synth).next;
      var i := Target(s, n, f.id);
      && t.byId == (if f.id != "" then s.byId[f.id := i] else s.byId)
      && t.toolSlots == (if Route(s, n, f.id).None? || n !in s.toolSlots then s.toolSlots[n := i] else s.toolSlots)
      && t.toolSlots.Keys == s.toolSlots.Keys + {n}
      && t.next == s.next + (if Route(s, n, f.id).None? then 1 else 0)
  {
    TakeStores(s, f, position, synth);
    TakeKeys(s, f, position, synth);
  }

  /** One more move that is not refused, with the block it reaches. */
  lemma MovesMore(front: seq<Move>, move: Move, synth: SynthId, n: int, i: nat)
    requires move.Deltas? && Reached(front + [move], |front|, synth) == Some(i)
    ensures HolderOf(front + [move], n, synth)
         == var was := HolderOf(front, n, synth);
            if Number(move) == n && (was.None? || Home(front, move, synth).None?) then Some(i) else was
    ensures NumbersOf(front + [move], synth) == NumbersOf(front, synth) + {Number(move)}
    ensures BlocksOf(front + [move], synth) == BlocksOf(front, synth) + (if Home(front, move, synth).None? then 1 else 0)
  {
    assert (front + [move])[..|front|] == front;
  }

  lemma NextHolder(s: State, t: State, front: seq<Move>, move: Move, synth: SynthId, n: int)
    requires Synthesizes(synth) && move.Deltas? && s == Run(front, synth) && Inv(s) && Maps(s, front, synth)
    requires t == Take(s, move.fragment, move.position, synth).next && !Refused(s, Number(move), move.fragment.id)
    ensures HolderOf(front + [move], n, synth) == if n in t.toolSlots then Some(t.toolSlots[n]) else None
  {
    RouteIsHome(front, move, synth);
    StepMaps(s, move.fragment, move.position, synth);
    ReachedNow(front, move, synth);
    MovesMore(front, move, synth, n, Target(s, Number(move), move.fragment.id));
  }

  lemma NextHolders(s: State, t: State, front: seq<Move>, move: Move, synth: SynthId)
    requires Synthesizes(synth) && move.Deltas? && s == Run(front, synth) && Inv(s) && Maps(s, front, synth)
    requires t == Take(s, move.fragment, move.position, synth).next && !Refused(s, Number(move), move.fragment.id)
    ensures HoldersMatch(t, front + [move], synth)
  {
    forall n | true ensures HolderOf(front + [move], n, synth) == if n in t.toolSlots then Some(t.toolSlots[n]) else None {
      NextHolder(s, t, front, move, synth, n);
    }
  }

  lemma NextId(s: State, t: State, front: seq<Move>, move: Move, synth: SynthId, id: string)
    requires move.Deltas? && s == Run(front, synth) && Inv(s) && IdsMatch(s, front, synth) && id != ""
    requires t == Take(s, move.fragment, move.position, synth).next && !Refused(s, Number(move), move.fragment.id)
    ensures BlockOf(front + [move], id, synth) == if id in t.byId then Some(t.byId[id]) else None
  {
    assert (front + [move])[..|front|] == front;
    StepMaps(s, move.fragment, move.position, synth);
    ReachedNow(front, move, synth);
  }

  lemma NextIds(s: State, t: State, front: seq<Move>, move: Move, synth: SynthId)
    requires move.Deltas? && s == Run(front, synth) && Inv(s) && IdsMatch(s, front, synth)
    requires t == Take(s, move.fragment, move.position, synth).next && !Refused(s, Number(move), move.fragment.id)
    ensures IdsMatch(t, front + [move], synth)
  {
    forall id | id != "" ensures BlockOf(front + [move], id, synth) == if id in t.byId then Some(t.byId[id]) else None {
      NextId(s, t, front, move, synth, id);
    }
  }

  lemma NextCounts(s: State, t: State, front: seq<Move>, move: Move, synth: SynthId)
    requires Synthesizes(synth) && move.Deltas? && s == Run(front, synth) && Inv(s) && Maps(s, front, synth)
    requires t == Take(s, move.fragment, move.position, synth).next && !Refused(s, Number(move), move.fragment.id)
    ensures t.toolSlots.Keys == NumbersOf(front + [move], synth) && t.next == BlocksOf(front + [move], synth)
  {
    RouteIsHome(front, move, synth);
    StepMaps(s, move.fragment, move.position, synth);
    ReachedNow(front, move, synth);
    MovesMore(front, move, synth, 0, Target(s, Number(move), move.fragment.id));
  }

  lemma NothingMoves(front: seq<Move>, move: Move, synth: SynthId)
    requires Reached(front + [move], |front|, synth).None?
    ensures forall n :: HolderOf(front + [move], n, synth) == HolderOf(front, n, synth)
    ensures forall id :: BlockOf(front + [move], id, synth) == BlockOf(front, id, synth)
    ensures NumbersOf(front + [move], synth) == NumbersOf(front, synth)
    ensures BlocksOf(front + [move], synth) == BlocksOf(front, synth) + (if move.OtherBlock? then 1 else 0)
  {
    assert (front + [move])[..|front|] == front;
  }

  lemma NextMaps(front: seq<Move>, move: Move, synth: SynthId)
    requires Synthesizes(synth) && Inv(Run(front, synth)) && Maps(Run(front, synth), front, synth)
    ensures Maps(Run(front + [move], synth), front + [move], synth)
  {
    var s := Run(front, synth);
    if move.OtherBlock? {
      assert (front + [move])[..|front|] == front;
      NothingMoves(front, move, synth);
    } else {
      ReachedNow(front, move, synth);
      var t := Take(s, move.fragment, move.position, synth).next;
      if Refused(s, Number(move), move.fragment.id) {
        NothingMoves(front, move, synth);
      } else {
        NextHolders(s, t, front, move, synth);
        NextIds(s, t, front, move, synth);
        NextCounts(s, t, front, move, synth);
      }
    }
  }

  lemma {:induction false} RunMaps(moves: seq<Move>, synth: SynthId)
    requires Synthesizes(synth)
    ensures Maps(Run(moves, synth), moves, synth)
  {
    if moves == [] {
    } else {
      var front := moves[..|moves| - 1];
      RunMaps(front, synth);
      RunKeeps(front, synth);
      FrontLast(moves);
      NextMaps(front, moves[|front|], synth);
    }
  }

  /** Over any run: a fragment reaches its home; one without a home opens the next block, or is
      refused exactly when 4096 numbers are in use. */
  lemma FragmentsFindTheirCall(moves: seq<Move>, synth: SynthId)
    requires Synthesizes(synth) && moves != [] && moves[|moves| - 1].Deltas?
    ensures var front, last := moves[..|moves| - 1], moves[|moves| - 1];
      Reached(moves, |front|, synth)
      == if Home(front, last, synth).Some? then Home(front, last, synth)
         else if |NumbersOf(front, synth)| < 4096 then Some(BlocksOf(front, synth)) else None
  {
    var front, last := moves[..|moves| - 1], moves[|moves| - 1];
    RunMaps(front, synth);
    RunKeeps(front, synth);
    RouteIsHome(front, last, synth);
    assert |Run(front, synth).toolSlots| == |Run(front, synth).toolSlots.Keys|;
  }
}
