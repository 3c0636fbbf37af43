/** Tool-call fragments of the Chat Completions decoder:
    backend/codec/chatcompletions/decode_stream.go.

    A slot is named by the block index it owns, so that `toolSlots` and `byId` sharing a slot
    is sharing an index.  Blocks of other kinds draw from the same indices. */
module ChatSlots {
  import opened Ir
  import opened Seqs

  const MAX_TOOL_SLOTS := 4096

  datatype CustomPart = CustomPart(name: string, input: string)

  datatype Fragment = Fragment(
    index: Option<int>, id: string, name: string, arguments: string, isCustom: bool, custom: Option<CustomPart>)
  {
    function Name(): string { if custom.Some? then custom.value.name else name }
    function Input(): string { if custom.Some? then custom.value.input else arguments }
    predicate Custom() { isCustom || custom.Some? }
  }

  datatype Slot = Slot(id: string, name: string, pending: string, announced: bool, custom: bool)

  const NEW_SLOT := Slot("", "", "", false, false)

  datatype State = State(
    toolSlots: map<int, nat>, byId: map<string, nat>, slots: map<nat, Slot>, next: nat, callCounter: nat)

  const FRESH := State(map[], map[], map[], 0, 0)

  type SynthId = (string, nat) -> string

  /** Where a fragment belongs: a known id first, then the index, unless the slot there
      carries another id already. */
  function Route(s: State, n: int, id: string): Option<nat> {
    if id != "" && id in s.byId then Some(s.byId[id])
    else if n !in s.toolSlots then None
    else
      var i := s.toolSlots[n];
      if id != "" && i in s.slots && s.slots[i].id != "" && s.slots[i].id != id then None else Some(i)
  }

  predicate Refused(s: State, n: int, id: string) {
    Route(s, n, id).None? && |s.toolSlots| >= MAX_TOOL_SLOTS
  }

  function Target(s: State, n: int, id: string): nat {
    if Route(s, n, id).Some? then Route(s, n, id).value else s.next
  }

  function Seat(s: State, n: int, id: string): State {
    var i := Target(s, n, id);
    if Route(s, n, id).None? then
      s.(toolSlots := s.toolSlots[n := i], slots := s.slots[i := NEW_SLOT], next := s.next + 1)
    else if n !in s.toolSlots then s.(toolSlots := s.toolSlots[n := i])
    else s
  }

  datatype Out = Out(next: State, events: seq<Event>, failed: bool)

  function FillSlot(slot: Slot, f: Fragment): Slot {
    slot.(id := if f.id != "" then f.id else slot.id, custom := slot.custom || f.Custom(),
          name := if f.Name() != "" then f.Name() else slot.name)
  }

  /** Opens the block of a slot and releases what it has gathered. */
  function Announce(s: State, i: nat, slot: Slot, synth: SynthId): Out {
    var counter := if slot.id == "" then s.callCounter + 1 else s.callCounter;
    var id := if slot.id == "" then synth(slot.name, counter) else slot.id;
    var use := NO_TOOL_USE.(id := id, name := slot.name, kind := if slot.custom then ToolCustom else ToolFunction);
    Out(s.(slots := s.slots[i := slot.(id := id, announced := true, pending := "")], callCounter := counter),
        [BlockStart(i, Some(EmptyBlock(BlockToolUse).(toolUse := Some(use))))]
        + (if slot.pending != "" then [ToolInput(i, slot.pending)] else []), false)
  }

  /** Its index; without one, its place in the delta. */
  function Where(f: Fragment, position: nat): int {
    if f.index.Some? then f.index.value else position
  }

  function SlotAt(s: State, i: nat): Slot { if i in s.slots then s.slots[i] else NEW_SLOT }

  /** The slot a fragment belongs to, with the identity the fragment adds. */
  function Filled(s: State, f: Fragment, n: int): Slot { FillSlot(SlotAt(Seat(s, n, f.id), Target(s, n, f.id)), f) }

  function Stored(s: State, f: Fragment, n: int, slot: Slot): State {
    var i, seated := Target(s, n, f.id), Seat(s, n, f.id);
    seated.(byId := if f.id != "" then seated.byId[f.id := i] else seated.byId, slots := seated.slots[i := slot])
  }

  function Take(s: State, f: Fragment, position: nat, synth: SynthId): Out {
    var n := Where(f, position);
    var i, slot := Target(s, n, f.id), Filled(s, f, n);
    var more := slot.(pending := slot.pending + f.Input());
    if Refused(s, n, f.id) then Out(s, [], true)
    else if slot.announced then
      Out(Stored(s, f, n, slot), if f.Input() != "" then [ToolInput(i, f.Input())] else [], false)
    else if slot.name != "" then Announce(Stored(s, f, n, more), i, more, synth)
    else Out(Stored(s, f, n, more), [], false)
  }

  /** One delta's fragments.  A refusal drops the events of the whole delta. */
  function TakeAll(s: State, fs: seq<Fragment>, synth: SynthId): Out {
    if fs == [] then Out(s, [], false)
    else
      var front := TakeAll(s, fs[..|fs| - 1], synth);
      if front.failed then front
      else
        var last := Take(front.next, fs[|fs| - 1], |fs| - 1, synth);
        if last.failed then Out(last.next, [], true)
        else Out(last.next, front.events + last.events, false)
  }

  // ----- the decoder itself -----

  class ToolDecoder {
    var toolSlots: map<int, nat>
    var byId: map<string, nat>
    var slots: map<nat, Slot>
    var next: nat
    var callCounter: nat
    const synth: SynthId

    function Abs(): State
      reads this
    {
      State(toolSlots, byId, slots, next, callCounter)
    }

    constructor (synth: SynthId)
      ensures Abs() == FRESH && this.synth == synth
    {
      this.synth := synth;
      toolSlots, byId, slots, next, callCounter := map[], map[], map[], 0, 0;
    }

    method AllocIndex() returns (index: nat)
      modifies this`next
      ensures index == old(next) && next == index + 1
    {
      index := next;
      next := next + 1;
    }

    method FindSlot(n: int, id: string) returns (slot: Option<nat>)
      requires forall k :: k in toolSlots ==> toolSlots[k] in slots
      modifies this`toolSlots, this`slots, this`next
      ensures slot.None? <==> Refused(old(Abs()), n, id)
      ensures slot.None? ==> Abs() == old(Abs())
      ensures slot.Some? ==> slot.value == Target(old(Abs()), n, id) && Abs() == Seat(old(Abs()), n, id)
    {
      slot := if n in toolSlots then Some(toolSlots[n]) else None;
      if id != "" {
        if id in byId {
          var known := byId[id];
          if slot != Some(known) {
            if slot.None? {
              toolSlots := toolSlots[n := known];
            }
            slot := Some(known);
          }
        } else if slot.Some? && slots[slot.value].id != "" && id != slots[slot.value].id {
          slot := None;
        }
      }
      if slot.None? {
        if |toolSlots| >= MAX_TOOL_SLOTS {
          return;
        }
        var index := AllocIndex();
        slots := slots[index := NEW_SLOT];
        toolSlots := toolSlots[n := index];
        slot := Some(index);
      }
    }

    method AnnounceSlot(i: nat) returns (out: seq<Event>)
      requires i in slots
      modifies this`slots, this`callCounter
      ensures Out(Abs(), out, false) == Announce(old(Abs()), i, old(slots)[i], synth)
    {
      var slot := slots[i];
      if slot.id == "" {
        callCounter := callCounter + 1;
        slot := slot.(id := synth(slot.name, callCounter));
      }
      var kind := if slot.custom then ToolCustom else ToolFunction;
      var use := NO_TOOL_USE.(id := slot.id, name := slot.name, kind := kind);
      out := [BlockStart(i, Some(EmptyBlock(BlockToolUse).(toolUse := Some(use))))];
      if slot.pending != "" {
        out := out + [ToolInput(i, slot.pending)];
      }
      slots := slots[i := slot.(announced := true, pending := "")];
    }

    /** Finds the slot of a fragment and writes down what it adds to the identity. */
    method Place(f: Fragment, n: int) returns (found: Option<nat>)
      requires forall k :: k in toolSlots ==> toolSlots[k] in slots
      requires forall id :: id in byId ==> byId[id] in slots
      modifies this`toolSlots, this`slots, this`next, this`byId
      ensures found.None? <==> Refused(old(Abs()), n, f.id)
      ensures found.None? ==> Abs() == old(Abs())
      ensures found.Some? ==>
        && found.value == Target(old(Abs()), n, f.id)
        && Abs() == Stored(old(Abs()), f, n, Filled(old(Abs()), f, n))
    {
      found := FindSlot(n, f.id);
      if found.None? {
        return;
      }
      var i := found.value;
      if f.id != "" {
        byId := byId[f.id := i];
      }
      slots := slots[i := FillSlot(slots[i], f)];
    }

    method TakeFragment(f: Fragment, position: nat) returns (out: seq<Event>, failed: bool)
      requires forall k :: k in toolSlots ==> toolSlots[k] in slots
      requires forall id :: id in byId ==> byId[id] in slots
      modifies this
      ensures Out(Abs(), out, failed) == Take(old(Abs()), f, position, synth)
    {
      out, failed := [], false;
      var found := Place(f, Where(f, position));
      if found.None? {
        return [], true;
      }
      var i := found.value;
      var slot := slots[i];
      if slot.announced {
        if f.Input() != "" {
          out := [ToolInput(i, f.Input())];
        }
        return;
      }
      ghost var placed := slots;
      slots := slots[i := slot.(pending := slot.pending + f.Input())];
      ghost var n := Where(f, position);
      assert Seat(old(Abs()), n, f.id).slots[i := slot][i := slots[i]] == Seat(old(Abs()), n, f.id).slots[i := slots[i]];
      if slot.name != "" {
        out := AnnounceSlot(i);
      }
    }

    method DecodeToolCalls(fs: seq<Fragment>) returns (out: seq<Event>, failed: bool)
      requires Inv(Abs())
      modifies this
      ensures Out(Abs(), out, failed) == TakeAll(old(Abs()), fs, synth) && Inv(Abs())
    {
      out, failed := [], false;
      for k := 0 to |fs|
        invariant Out(Abs(), out, false) == TakeAll(old(Abs()), fs[..k], synth) && Inv(Abs())
      {
        assert fs[..k + 1][..k] == fs[..k];
        TakeKeeps(Abs(), fs[k], k, synth);
        ghost var before := Abs();
        var events;
        events, failed := TakeFragment(fs[k], k);
        if failed {
          RefusalSticks(old(Abs()), fs, k + 1, synth);
          return [], true;
        }
        out := out + events;
      }
      assert fs[..|fs|] == fs;
    }
  }

  lemma {:induction false} RefusalSticks(s: State, fs: seq<Fragment>, k: nat, synth: SynthId)
    requires k <= |fs| && TakeAll(s, fs[..k], synth).failed
    ensures TakeAll(s, fs, synth) == TakeAll(s, fs[..k], synth)
    decreases |fs|
  {
    if k == |fs| {
      assert fs[..k] == fs;
    } else {
      assert fs[..|fs| - 1][..k] == fs[..k];
      RefusalSticks(s, fs[..|fs| - 1], k, synth);
    }
  }

  // ----- identity -----

  /** Each id is known under the slot that carries it. */
  ghost predicate Inv(s: State) {
    && (forall n :: n in s.toolSlots ==> s.toolSlots[n] in s.slots)
    && (forall id :: id in s.byId ==> id != "" && s.byId[id] in s.slots && s.slots[s.byId[id]].id == id)
    && (forall i :: i in s.slots ==> i < s.next)
  }

  /** What no fragment can undo. */
  ghost predicate Settled(s: State, t: State) {
    && (forall i :: i in s.slots ==> i in t.slots && (s.slots[i].id != "" ==> t.slots[i].id == s.slots[i].id))
    && (forall id :: id in s.byId ==> id in t.byId && t.byId[id] == s.byId[id])
    && s.next <= t.next
  }

  lemma TargetCarries(s: State, n: int, id: string)
    requires Inv(s) && !Refused(s, n, id)
    ensures var i, t := Target(s, n, id), Seat(s, n, id);
      && i in t.slots && (t.slots[i].id == "" || id == "" || t.slots[i].id == id)
      && (forall k :: k in t.toolSlots ==> t.toolSlots[k] in t.slots) && t.byId == s.byId
      && (forall k :: k in s.slots ==> k in t.slots && t.slots[k] == s.slots[k])
      && (forall k :: k in t.slots ==> k < t.next) && s.next <= t.next
      && (id != "" && id in s.byId ==> s.byId[id] == i)
  {}

  lemma StoredKeeps(s: State, f: Fragment, n: int, slot: Slot)
    requires Inv(s) && !Refused(s, n, f.id)
    requires var filled := Filled(s, f, n); slot.id == filled.id || filled.id == ""
    ensures var t := Stored(s, f, n, slot); Inv(t) && Settled(s, t)
  {
    TargetCarries(s, n, f.id);
  }

  lemma AnnouncedIsStored(s: State, f: Fragment, n: int, more: Slot, synth: SynthId)
    ensures var i, t := Target(s, n, f.id), Announce(Stored(s, f, n, more), Target(s, n, f.id), more, synth).next;
      t == Stored(s, f, n, t.slots[i]).(callCounter := t.callCounter)
  {
    var i, t := Target(s, n, f.id), Announce(Stored(s, f, n, more), Target(s, n, f.id), more, synth).next;
    assert Stored(s, f, n, more).slots[i := t.slots[i]] == Stored(s, f, n, t.slots[i]).slots;
  }

  lemma TakeKeeps(s: State, f: Fragment, position: nat, synth: SynthId)
    requires Inv(s)
    ensures var t := Take(s, f, position, synth).next; Inv(t) && Settled(s, t)
  {
    var n, out := Where(f, position), Take(s, f, position, synth);
    if !Refused(s, n, f.id) {
      var i, slot := Target(s, n, f.id), Filled(s, f, n);
      var more := slot.(pending := slot.pending + f.Input());
      if slot.announced {
        StoredKeeps(s, f, n, slot);
      } else if slot.name != "" {
        StoredKeeps(s, f, n, out.next.slots[i]);
        AnnouncedIsStored(s, f, n, more, synth);
      } else {
        StoredKeeps(s, f, n, more);
      }
    }
  }

  /** A run: deltas with tool fragments, and other blocks taking an index in between. */
  datatype Move = Deltas(fragment: Fragment, position: nat) | OtherBlock

  function Run(moves: seq<Move>, synth: SynthId): State {
    if moves == [] then FRESH
    else
      var s := Run(moves[..|moves| - 1], synth);
      match moves[|moves| - 1]
      case Deltas(f, position) => Take(s, f, position, synth).next
      case OtherBlock => s.(next := s.next + 1)
  }

  /** The block that fragment `k` of the run reaches, unless it is refused. */
  function Reached(moves: seq<Move>, k: nat, synth: SynthId): Option<nat>
    requires k < |moves|
  {
    var s := Run(moves[..k], synth);
    match moves[k]
    case OtherBlock => None
    case Deltas(f, position) =>
      var n := Where(f, position);
      if Refused(s, n, f.id) then None else Some(Target(s, n, f.id))
  }

  lemma {:induction false} RunKeeps(moves: seq<Move>, synth: SynthId)
    ensures Inv(Run(moves, synth))
  {
    if moves == [] {
    } else {
      var front := moves[..|moves| - 1];
      RunKeeps(front, synth);
      match moves[|moves| - 1]
      case Deltas(f, position) => TakeKeeps(Run(front, synth), f, position, synth);
      case OtherBlock =>
    }
  }

  lemma {:induction false} RunSettles(moves: seq<Move>, k: nat, synth: SynthId)
    requires k <= |moves|
    ensures Settled(Run(moves[..k], synth), Run(moves, synth))
    decreases |moves|
  {
    if k == |moves| {
      assert moves[..k] == moves;
    } else {
      var front := moves[..|moves| - 1];
      assert front[..k] == moves[..k];
      RunSettles(front, k, synth);
      RunKeeps(front, synth);
      match moves[|moves| - 1]
      case Deltas(f, position) => TakeKeeps(Run(front, synth), f, position, synth);
      case OtherBlock =>
    }
  }

  /** The id is known under slot `i`, which carries it. */
  ghost predicate Known(s: State, i: nat, id: string) {
    id in s.byId && s.byId[id] == i && i in s.slots && s.slots[i].id == id
  }

  lemma ReachedIsKnown(moves: seq<Move>, k: nat, synth: SynthId)
    requires k < |moves| && Reached(moves, k, synth).Some? && moves[k].fragment.id != ""
    ensures Known(Run(moves[..k + 1], synth), Reached(moves, k, synth).value, moves[k].fragment.id)
  {
    var front := moves[..k + 1];
    assert front[..k] == moves[..k] && front[k] == moves[k];
    RunKeeps(moves[..k], synth);
    RunKeeps(front, synth);
  }

  lemma StaysKnown(moves: seq<Move>, j: nat, synth: SynthId)
    requires j < |moves| && Reached(moves, j, synth).Some? && moves[j].fragment.id != ""
    ensures Known(Run(moves, synth), Reached(moves, j, synth).value, moves[j].fragment.id)
  {
    ReachedIsKnown(moves, j, synth);
    RunSettles(moves, j + 1, synth);
  }

  lemma SameBlockSameId(s: State, i: nat, a: string, j: nat, b: string)
    requires Known(s, i, a) && Known(s, j, b)
    ensures i == j <==> a == b
  {}

  /** Over any run, whatever indices the upstream uses: fragments with the same id reach one
      block, fragments with different ids never share one, and an id once set stays. */
  lemma IdsDecideBlocks(moves: seq<Move>, j: nat, k: nat, synth: SynthId)
    requires j < k < |moves|
    requires Reached(moves, j, synth).Some? && Reached(moves, k, synth).Some?
    requires moves[j].fragment.id != "" && moves[k].fragment.id != ""
    ensures Reached(moves, j, synth) == Reached(moves, k, synth) <==> moves[j].fragment.id == moves[k].fragment.id
    ensures Known(Run(moves, synth), Reached(moves, j, synth).value, moves[j].fragment.id)
  {
    StaysKnown(moves, j, synth);
    StaysKnown(moves, k, synth);
    SameBlockSameId(Run(moves, synth), Reached(moves, j, synth).value, moves[j].fragment.id,
                    Reached(moves, k, synth).value, moves[k].fragment.id);
  }

  // ----- announcements -----

  function Concat(parts: seq<string>): string {
    if parts == [] then "" else Concat(parts[..|parts| - 1]) + parts[|parts| - 1]
  }

  /** Everything emitted over the run, in order. */
  function Emitted(moves: seq<Move>, synth: SynthId): seq<Event> {
    if moves == [] then []
    else
      Emitted(moves[..|moves| - 1], synth) +
      (match moves[|moves| - 1]
       case Deltas(f, position) => Take(Run(moves[..|moves| - 1], synth), f, position, synth).events
       case OtherBlock => [])
  }

  /** The inputs of the fragments that reached block `i`. */
  function Routed(moves: seq<Move>, i: nat, synth: SynthId): string {
    if moves == [] then ""
    else
      Routed(moves[..|moves| - 1], i, synth) +
      (if Reached(moves, |moves| - 1, synth) == Some(i) then moves[|moves| - 1].fragment.Input() else "")
  }

  /** The arguments sent for block `i`, and how often it was opened. */
  function SentInput(evs: seq<Event>, i: nat): string {
    if evs == [] then ""
    else
      var ev := evs[|evs| - 1];
      SentInput(evs[..|evs| - 1], i) + (if ev.ToolInput? && ev.index == i then ev.text else "")
  }

  function Starts(evs: seq<Event>, i: nat): nat {
    if evs == [] then 0
    else
      var ev := evs[|evs| - 1];
      Starts(evs[..|evs| - 1], i) + (if ev.BlockStart? && ev.index == i then 1 else 0)
  }

  lemma {:induction false} EventsConcat(x: seq<Event>, y: seq<Event>, i: nat)
    ensures SentInput(x + y, i) == SentInput(x, i) + SentInput(y, i)
    ensures Starts(x + y, i) == Starts(x, i) + Starts(y, i)
  {
    if y == [] {
      assert x + y == x;
    } else {
      assert (x + y)[..|x + y| - 1] == x + y[..|y| - 1];
      EventsConcat(x, y[..|y| - 1], i);
    }
  }

  lemma EventsOne(ev: Event, i: nat)
    ensures SentInput([ev], i) == if ev.ToolInput? && ev.index == i then ev.text else ""
    ensures Starts([ev], i) == if ev.BlockStart? && ev.index == i then 1 else 0
  {
    assert [ev][..0] == [];
  }

  /** The account of one slot. */
  ghost predicate Even(slot: Slot, sent: string, starts: nat, routed: string) {
    && routed == sent + slot.pending && starts == (if slot.announced then 1 else 0)
    && (if slot.announced then slot.pending == "" && slot.id != "" else sent == "")
  }

  /** The account of block `i`: what was routed to it is what was sent plus what is held
      back, it was opened once if at all, and nothing is held back once it is open. */
  ghost predicate Balanced(s: State, evs: seq<Event>, routed: string, i: nat) {
    if i in s.slots then Even(s.slots[i], SentInput(evs, i), Starts(evs, i), routed)
    else routed == "" && SentInput(evs, i) == "" && Starts(evs, i) == 0
  }

  /** Calls without an id get one: the synthesized id is not empty. */
  ghost predicate Synthesizes(synth: SynthId) { forall name, n :: synth(name, n) != "" }

  lemma TakeBalances(s: State, f: Fragment, position: nat, synth: SynthId, evs: seq<Event>, routed: string, i: nat)
    requires Inv(s) && Synthesizes(synth) && Balanced(s, evs, routed, i)
    ensures var out := Take(s, f, position, synth);
      var n := Where(f, position);
      var more := if !Refused(s, n, f.id) && Target(s, n, f.id) == i then f.Input() else "";
      Balanced(out.next, evs + out.events, routed + more, i)
  {
    var out := Take(s, f, position, synth);
    var n := Where(f, position);
    EventsConcat(evs, out.events, i);
    assert routed + "" == routed;
    if !Refused(s, n, f.id) {
      TargetCarries(s, n, f.id);
      if Target(s, n, f.id) == i { HereBalances(s, f, position, synth, evs, routed); } else { ElsewhereQuiet(s, f, position, synth, i); }
    } else {
      assert SentInput(evs, i) + "" == SentInput(evs, i);
    }
  }

  lemma ElsewhereQuiet(s: State, f: Fragment, position: nat, synth: SynthId, i: nat)
    requires Inv(s)
    requires var n := Where(f, position);
      !Refused(s, n, f.id) && Target(s, n, f.id) != i
    ensures var out := Take(s, f, position, synth);
      && SentInput(out.events, i) == "" && Starts(out.events, i) == 0
      && (i in s.slots <==> i in out.next.slots) && (i in s.slots ==> out.next.slots[i] == s.slots[i])
  {
    var evs := Take(s, f, position, synth).events;
    if evs != [] { EventsOne(evs[0], i); }
    if |evs| == 2 {
      assert evs == [evs[0]] + [evs[1]];
      EventsConcat([evs[0]], [evs[1]], i);
      EventsOne(evs[1], i);
    } else if |evs| == 1 {
      assert evs == [evs[0]];
    }
  }

  /** What one fragment makes of its own slot. */
  lemma TakenSlot(s: State, f: Fragment, position: nat, synth: SynthId)
    requires Inv(s) && Synthesizes(synth) && !Refused(s, Where(f, position), f.id)
    ensures var n, t := Where(f, position), Take(s, f, position, synth).next;
      var i, slot := Target(s, n, f.id), Filled(s, f, n);
      && i in t.slots && SlotAt(Seat(s, n, f.id), i) == SlotAt(s, i)
      && (if slot.announced then t.slots[i] == slot
          else if slot.name != "" then t.slots[i].announced && t.slots[i].pending == "" && t.slots[i].id != ""
          else !t.slots[i].announced && t.slots[i].pending == slot.pending + f.Input())
  {
    TargetCarries(s, Where(f, position), f.id);
  }

  lemma StaysEven(was: Slot, now: Slot, f: Fragment, sent: string, more: string, starts: nat, newStarts: nat, routed: string)
    requires Even(was, sent, starts, routed)
    requires var slot := FillSlot(was, f);
      && (if slot.announced then now == slot
          else if slot.name != "" then now.announced && now.pending == "" && now.id != ""
          else !now.announced && now.pending == slot.pending + f.Input())
      && more == (if slot.announced then f.Input() else if slot.name != "" then slot.pending + f.Input() else "")
      && newStarts == (if !slot.announced && slot.name != "" then 1 else 0)
    ensures Even(now, sent + more, starts + newStarts, routed + f.Input())
  {
    assert sent + "" == sent && "" + (was.pending + f.Input()) == was.pending + f.Input();
    assert (sent + was.pending) + f.Input() == sent + (was.pending + f.Input());
    assert (sent + f.Input()) + "" == sent + f.Input();
  }

  lemma BalancedIsEven(s: State, evs: seq<Event>, routed: string, i: nat)
    requires Balanced(s, evs, routed, i)
    ensures Even(SlotAt(s, i), SentInput(evs, i), Starts(evs, i), routed)
  {}

  lemma HereBalances(s: State, f: Fragment, position: nat, synth: SynthId, evs: seq<Event>, routed: string)
    requires Inv(s) && Synthesizes(synth)
    requires var n := Where(f, position);
      !Refused(s, n, f.id) && Balanced(s, evs, routed, Target(s, n, f.id))
    ensures var n := Where(f, position);
      var out := Take(s, f, position, synth);
      Balanced(out.next, evs + out.events, routed + f.Input(), Target(s, n, f.id))
  {
    var i, out := Target(s, Where(f, position), f.id), Take(s, f, position, synth);
    EventsConcat(evs, out.events, i);
    TakenEvents(s, f, position, synth);
    TakenSlot(s, f, position, synth);
    BalancedIsEven(s, evs, routed, i);
    StaysEven(SlotAt(s, i), out.next.slots[i], f, SentInput(evs, i), SentInput(out.events, i),
              Starts(evs, i), Starts(out.events, i), routed);
  }

  /** What one fragment makes its own block say. */
  lemma TakenEvents(s: State, f: Fragment, position: nat, synth: SynthId)
    requires !Refused(s, Where(f, position), f.id)
    ensures var n, news := Where(f, position), Take(s, f, position, synth).events;
      var i, slot := Target(s, n, f.id), Filled(s, f, n);
      && SentInput(news, i) == (if slot.announced then f.Input()
                                else if slot.name != "" then slot.pending + f.Input() else "")
      && Starts(news, i) == (if !slot.announced && slot.name != "" then 1 else 0)
  {
    var news := Take(s, f, position, synth).events;
    var i := Target(s, Where(f, position), f.id);
    if news != [] { EventsOne(news[0], i); }
    if |news| == 2 {
      assert news == [news[0]] + [news[1]];
      EventsConcat([news[0]], [news[1]], i);
      EventsOne(news[1], i);
    } else if |news| == 1 {
      assert news == [news[0]];
    }
  }

  lemma {:induction false} RunBalances(moves: seq<Move>, i: nat, synth: SynthId)
    requires Synthesizes(synth)
    ensures Balanced(Run(moves, synth), Emitted(moves, synth), Routed(moves, i, synth), i)
  {
    if moves == [] {
    } else {
      var n := |moves| - 1;
      var front := moves[..n];
      RunBalances(front, i, synth);
      RunKeeps(front, synth);
      match moves[n]
      case Deltas(f, position) =>
        TakeBalances(Run(front, synth), f, position, synth, Emitted(front, synth), Routed(front, i, synth), i);
      case OtherBlock =>
        assert Emitted(front, synth) + [] == Emitted(front, synth);
        assert Routed(front, i, synth) + "" == Routed(front, i, synth);
    }
  }

  lemma EvenMeans(slot: Slot, sent: string, starts: nat, routed: string)
    requires Even(slot, sent, starts, routed)
    ensures if slot.announced then starts == 1 && sent == routed && slot.id != ""
            else starts == 0 && sent == "" && slot.pending == routed
  {
    assert sent + "" == sent && "" + slot.pending == slot.pending;
  }

  /** Opening comes before input. */
  ghost predicate OpenedFirst(evs: seq<Event>) {
    forall k :: 0 <= k < |evs| && evs[k].ToolInput? && evs[k].index >= 0 ==> Starts(evs[..k], evs[k].index) > 0
  }

  lemma {:induction false} StartsGrow(x: seq<Event>, y: seq<Event>, k: nat, i: nat)
    requires k <= |y|
    ensures Starts((x + y)[..|x| + k], i) == Starts(x, i) + Starts(y[..k], i)
  {
    assert (x + y)[..|x| + k] == x + y[..k];
    EventsConcat(x, y[..k], i);
  }

  lemma {:induction false} EmittedInOrder(moves: seq<Move>, synth: SynthId)
    requires Synthesizes(synth)
    ensures OpenedFirst(Emitted(moves, synth))
  {
    if moves == [] {
    } else {
      var n := |moves| - 1;
      var front := moves[..n];
      EmittedInOrder(front, synth);
      var evs, all := Emitted(front, synth), Emitted(moves, synth);
      var news := all[|evs|..];
      assert all == evs + news;
      forall k | 0 <= k < |all| && all[k].ToolInput? && all[k].index >= 0
        ensures Starts(all[..k], all[k].index) > 0
      {
        var i: nat := all[k].index;
        if k < |evs| {
          assert all[..k] == evs[..k];
        } else {
          StartsGrow(evs, news, k - |evs|, i);
          RunBalances(front, i, synth);
          RunKeeps(front, synth);
          NewInputIsOpen(Run(front, synth), moves[n], synth, k - |evs|);
        }
      }
    }
  }

  lemma NewInputIsOpen(s: State, move: Move, synth: SynthId, k: nat)
    requires Inv(s) && move.Deltas?
    requires var news := Take(s, move.fragment, move.position, synth).events;
      k < |news| && news[k].ToolInput?
    ensures var news := Take(s, move.fragment, move.position, synth).events;
      && news[k].index >= 0
      && (Starts(news[..k], news[k].index) > 0 || (news[k].index in s.slots && s.slots[news[k].index].announced))
  {
    var f := move.fragment;
    var news := Take(s, f, move.position, synth).events;
    var n := Where(f, move.position);
    TargetCarries(s, n, f.id);
    if k == 1 {
      assert news[..1] == [news[0]];
      EventsOne(news[0], Target(s, n, f.id));
    }
  }

  // ----- whole deltas -----

  /** What reaches the decoder: a delta with its fragments, or a block of another kind. */
  datatype Arrival = Delta(fragments: seq<Fragment>) | Other

  /** Fragment by fragment, up to and including the first that is refused. */
  function TakeEach(s: State, fs: seq<Fragment>, synth: SynthId): Out {
    if fs == [] then Out(s, [], false)
    else
      var front := TakeEach(s, fs[..|fs| - 1], synth);
      if front.failed then front
      else
        var last := Take(front.next, fs[|fs| - 1], |fs| - 1, synth);
        Out(last.next, front.events + last.events, last.failed)
  }

  /** A delta hands out what its fragments say, or nothing when one of them is refused; the
      state has moved on either way. */
  lemma {:induction false} TakeAllIsEach(s: State, fs: seq<Fragment>, synth: SynthId)
    ensures var each := TakeEach(s, fs, synth);
      TakeAll(s, fs, synth) == Out(each.next, if each.failed then [] else each.events, each.failed)
  {
    if fs == [] {
    } else {
      TakeAllIsEach(s, fs[..|fs| - 1], synth);
    }
  }

  /** So a run of arrivals is a run of the decoder: each delta hands out what `DecodeToolCalls`
      returns, from the state that the deltas before it left. */
  lemma RunOfTheDecoder(arrivals: seq<Arrival>, fs: seq<Fragment>, synth: SynthId)
    ensures var all, call := arrivals + [Delta(fs)], TakeAll(Decoded(arrivals, synth), fs, synth);
      && Decoded(all, synth) == call.next && Latest(all, synth).failed == call.failed
      && HandedOut(all, synth) == HandedOut(arrivals, synth) + call.events
  {
    ConcatFront(arrivals, [Delta(fs)]);
    ConcatNothing(arrivals);
    LatestRuns(arrivals + [Delta(fs)], synth);
    TakeAllIsEach(Decoded(arrivals, synth), fs, synth);
  }

  /** The fragments of a delta that are looked at. */
  function Steps(s: State, fs: seq<Fragment>, synth: SynthId): seq<Move> {
    if fs == [] then []
    else
      var n := |fs| - 1;
      Steps(s, fs[..n], synth) + (if TakeEach(s, fs[..n], synth).failed then [] else [Deltas(fs[n], n)])
  }

  function Handled(arrivals: seq<Arrival>, synth: SynthId): seq<Move> {
    if arrivals == [] then []
    else
      var front := Handled(arrivals[..|arrivals| - 1], synth);
      match arrivals[|arrivals| - 1]
      case Delta(fs) => front + Steps(Run(front, synth), fs, synth)
      case Other => front + [OtherBlock]
  }

  function Decoded(arrivals: seq<Arrival>, synth: SynthId): State { Run(Handled(arrivals, synth), synth) }

  /** What the last arrival makes of the state before it. */
  function Latest(arrivals: seq<Arrival>, synth: SynthId): Out
    requires arrivals != []
  {
    var s := Decoded(arrivals[..|arrivals| - 1], synth);
    match arrivals[|arrivals| - 1]
    case Delta(fs) => TakeEach(s, fs, synth)
    case Other => Out(s.(next := s.next + 1), [], false)
  }

  /** All events handed out, and all those that a refused delta held back for good. */
  function HandedOut(arrivals: seq<Arrival>, synth: SynthId): seq<Event> {
    if arrivals == [] then []
    else
      HandedOut(arrivals[..|arrivals| - 1], synth)
      + (if Latest(arrivals, synth).failed then [] else Latest(arrivals, synth).events)
  }

  function Dropped(arrivals: seq<Arrival>, synth: SynthId): seq<Event> {
    if arrivals == [] then []
    else
      Dropped(arrivals[..|arrivals| - 1], synth)
      + (if Latest(arrivals, synth).failed then Latest(arrivals, synth).events else [])
  }

  /** A fragment is refused when it needs a new slot and all indices there may be are in use. */
  predicate Admitted(moves: seq<Move>, k: nat, synth: SynthId)
    requires k < |moves|
  {
    moves[k].Deltas? ==>
      var s, f := Run(moves[..k], synth), moves[k].fragment;
      Route(s, Where(f, moves[k].position), f.id).Some? || |s.toolSlots| < MAX_TOOL_SLOTS
  }

  ghost predicate AllAdmitted(moves: seq<Move>, synth: SynthId) {
    forall k :: 0 <= k < |moves| ==> Admitted(moves, k, synth)
  }

  ghost predicate NoneRefused(arrivals: seq<Arrival>, synth: SynthId) { AllAdmitted(Handled(arrivals, synth), synth) }

  lemma AdmittedMore(moves: seq<Move>, move: Move, synth: SynthId)
    ensures AllAdmitted(moves + [move], synth) <==> AllAdmitted(moves, synth) && Admitted(moves + [move], |moves|, synth)
  {
    var all := moves + [move];
    forall k | 0 <= k < |moves| ensures Admitted(all, k, synth) == Admitted(moves, k, synth) {
      assert all[..k] == moves[..k];
    }
  }

  lemma {:induction false} StepsAdmitted(moves: seq<Move>, fs: seq<Fragment>, synth: SynthId)
    ensures var s := Run(moves, synth);
      AllAdmitted(moves + Steps(s, fs, synth), synth) <==> AllAdmitted(moves, synth) && !TakeEach(s, fs, synth).failed
  {
    var s := Run(moves, synth);
    if fs == [] {
      ConcatNothing(moves);
    } else {
      var n := |fs| - 1;
      var before := moves + Steps(s, fs[..n], synth);
      StepsAdmitted(moves, fs[..n], synth);
      if TakeEach(s, fs[..n], synth).failed {
        ConcatNothing(Steps(s, fs[..n], synth));
      } else {
        StepsRun(moves, fs[..n], synth);
        Associate(moves, Steps(s, fs[..n], synth), [Deltas(fs[n], n)]);
        AdmittedMore(before, Deltas(fs[n], n), synth);
        ConcatFront(before, [Deltas(fs[n], n)]);
        ConcatNothing(before);
      }
    }
  }

  lemma {:induction false} StepsRun(moves: seq<Move>, fs: seq<Fragment>, synth: SynthId)
    ensures var s, all := Run(moves, synth), moves + Steps(Run(moves, synth), fs, synth);
      && Run(all, synth) == TakeEach(s, fs, synth).next
      && Emitted(all, synth) == Emitted(moves, synth) + TakeEach(s, fs, synth).events
  {
    var s := Run(moves, synth);
    if fs == [] {
      ConcatNothing(moves);
      ConcatNothing(Emitted(moves, synth));
    } else {
      var n := |fs| - 1;
      var before := moves + Steps(s, fs[..n], synth);
      StepsRun(moves, fs[..n], synth);
      if TakeEach(s, fs[..n], synth).failed {
        ConcatNothing(Steps(s, fs[..n], synth));
      } else {
        var move := Deltas(fs[n], n);
        Associate(moves, Steps(s, fs[..n], synth), [move]);
        ConcatFront(before, [move]);
        ConcatNothing(before);
        Associate(Emitted(moves, synth), TakeEach(s, fs[..n], synth).events,
                  Take(Run(before, synth), fs[n], n, synth).events);
      }
    }
  }

  /** Each arrival does to the state, and says, what its fragments do and say one by one. */
  lemma LatestRuns(arrivals: seq<Arrival>, synth: SynthId)
    requires arrivals != []
    ensures var front := arrivals[..|arrivals| - 1];
      && Decoded(arrivals, synth) == Latest(arrivals, synth).next
      && Emitted(Handled(arrivals, synth), synth) == Emitted(Handled(front, synth), synth) + Latest(arrivals, synth).events
  {
    var front := Handled(arrivals[..|arrivals| - 1], synth);
    match arrivals[|arrivals| - 1]
    case Delta(fs) => StepsRun(front, fs, synth);
    case Other =>
      ConcatFront(front, [OtherBlock]);
      ConcatNothing(front);
      ConcatNothing(Emitted(front, synth));
  }

  /** Said by the fragments is what was handed out and what was dropped. */
  ghost predicate Shared(all: seq<Event>, out: seq<Event>, dropped: seq<Event>, i: nat) {
    && Starts(all, i) == Starts(out, i) + Starts(dropped, i)
    && |SentInput(all, i)| == |SentInput(out, i)| + |SentInput(dropped, i)|
    && (SentInput(dropped, i) == "" ==> SentInput(out, i) == SentInput(all, i))
  }

  lemma SharedMore(all: seq<Event>, out: seq<Event>, dropped: seq<Event>, news: seq<Event>, lost: bool, i: nat)
    requires Shared(all, out, dropped, i)
    ensures Shared(all + news, out + (if lost then [] else news), dropped + (if lost then news else []), i)
  {
    EventsConcat(all, news, i);
    EventsConcat(out, news, i);
    EventsConcat(dropped, news, i);
    ConcatNothing(out);
    ConcatNothing(dropped);
    ConcatNothing(SentInput(all, i));
  }

  lemma {:induction false} HandedOutOrDropped(arrivals: seq<Arrival>, i: nat, synth: SynthId)
    ensures Shared(Emitted(Handled(arrivals, synth), synth), HandedOut(arrivals, synth), Dropped(arrivals, synth), i)
  {
    if arrivals == [] {
    } else {
      var front := arrivals[..|arrivals| - 1];
      HandedOutOrDropped(front, i, synth);
      LatestRuns(arrivals, synth);
      SharedMore(Emitted(Handled(front, synth), synth), HandedOut(front, synth), Dropped(front, synth),
                 Latest(arrivals, synth).events, Latest(arrivals, synth).failed, i);
    }
  }

  /** The inputs of all fragments that reached block `i`. */
  function RoutedTo(arrivals: seq<Arrival>, i: nat, synth: SynthId): string { Routed(Handled(arrivals, synth), i, synth) }

  /** Over any run of deltas: a block whose call has been named has been opened once, under an
      id, and its input deltas concatenate to exactly the fragments that were routed to it, if
      and only if no refused delta was the one to say any of it.  Whatever is missing is what
      the refused deltas held back.  An unnamed block has sent nothing and holds all of it. */
  lemma NothingIsLostOrRepeated(arrivals: seq<Arrival>, i: nat, synth: SynthId)
    requires Synthesizes(synth) && i in Decoded(arrivals, synth).slots
    ensures var slot, out, dropped := Decoded(arrivals, synth).slots[i], HandedOut(arrivals, synth), Dropped(arrivals, synth);
      var routed := RoutedTo(arrivals, i, synth);
      if slot.announced then
        && slot.id != "" && Starts(out, i) + Starts(dropped, i) == 1
        && |SentInput(out, i)| + |SentInput(dropped, i)| == |routed|
        && ((Starts(out, i) == 1 && SentInput(out, i) == routed) == (Starts(dropped, i) == 0 && SentInput(dropped, i) == ""))
      else Starts(out, i) == 0 && SentInput(out, i) == "" && slot.pending == routed
  {
    var moves := Handled(arrivals, synth);
    RunBalances(moves, i, synth);
    EvenMeans(Run(moves, synth).slots[i], SentInput(Emitted(moves, synth), i), Starts(Emitted(moves, synth), i),
              Routed(moves, i, synth));
    HandedOutOrDropped(arrivals, i, synth);
  }

  /** The decoder refuses the last delta exactly when one of its fragments is not admitted. */
  lemma RefusedMore(arrivals: seq<Arrival>, synth: SynthId)
    requires arrivals != []
    ensures NoneRefused(arrivals, synth)
       <==> NoneRefused(arrivals[..|arrivals| - 1], synth) && !Latest(arrivals, synth).failed
  {
    var front := Handled(arrivals[..|arrivals| - 1], synth);
    match arrivals[|arrivals| - 1]
    case Delta(fs) => StepsAdmitted(front, fs, synth);
    case Other => AdmittedMore(front, OtherBlock, synth);
  }

  lemma {:induction false} NothingDropped(arrivals: seq<Arrival>, synth: SynthId)
    requires NoneRefused(arrivals, synth)
    ensures Dropped(arrivals, synth) == []
  {
    if arrivals == [] {
    } else {
      RefusedMore(arrivals, synth);
      NothingDropped(arrivals[..|arrivals| - 1], synth);
    }
  }

  /** The indices that the fragments of a delta name. */
  function Named(fs: seq<Fragment>): set<int> {
    if fs == [] then {} else Named(fs[..|fs| - 1]) + {Where(fs[|fs| - 1], |fs| - 1)}
  }

  function Mentioned(arrivals: seq<Arrival>): set<int> {
    if arrivals == [] then {}
    else
      Mentioned(arrivals[..|arrivals| - 1])
      + (match arrivals[|arrivals| - 1] case Delta(fs) => Named(fs) case Other => {})
  }

  lemma SmallerSet(x: set<int>, y: set<int>)
    requires x <= y
    ensures |x| <= |y|
  {
    if x != y {
      var rest := y - x;
      assert y == x + rest;
    }
  }

  lemma {:induction false} EachNames(s: State, fs: seq<Fragment>, synth: SynthId, used: set<int>)
    requires Inv(s) && s.toolSlots.Keys <= used && |used + Named(fs)| < MAX_TOOL_SLOTS
    ensures var each := TakeEach(s, fs, synth);
      !each.failed && Inv(each.next) && each.next.toolSlots.Keys <= used + Named(fs)
  {
    if fs == [] {
    } else {
      var n := |fs| - 1;
      SmallerSet(used + Named(fs[..n]), used + Named(fs));
      EachNames(s, fs[..n], synth, used);
      var mid := TakeEach(s, fs[..n], synth).next;
      SmallerSet(mid.toolSlots.Keys, used + Named(fs[..n]));
      assert |mid.toolSlots| == |mid.toolSlots.Keys|;
      TakeKeys(mid, fs[n], n, synth);
      TakeKeeps(mid, fs[n], n, synth);
    }
  }

  /** An upstream that names fewer indices than the limit never has a delta refused. */
  lemma {:induction false} FewAreNeverRefused(arrivals: seq<Arrival>, synth: SynthId)
    requires |Mentioned(arrivals)| < MAX_TOOL_SLOTS
    ensures NoneRefused(arrivals, synth)
    ensures Inv(Decoded(arrivals, synth)) && Decoded(arrivals, synth).toolSlots.Keys <= Mentioned(arrivals)
  {
    if arrivals == [] {
    } else {
      var front := arrivals[..|arrivals| - 1];
      SmallerSet(Mentioned(front), Mentioned(arrivals));
      FewAreNeverRefused(front, synth);
      RefusedMore(arrivals, synth);
      LatestRuns(arrivals, synth);
      match arrivals[|arrivals| - 1]
      case Delta(fs) => EachNames(Decoded(front, synth), fs, synth, Mentioned(front));
      case Other =>
    }
  }

  /** As long as no delta is refused, nothing is lost: and the stream ends with the first that
      is. */
  lemma NothingIsLostUntilRefused(arrivals: seq<Arrival>, i: nat, synth: SynthId)
    requires Synthesizes(synth) && NoneRefused(arrivals, synth)
    requires i in Decoded(arrivals, synth).slots && Decoded(arrivals, synth).slots[i].announced
    ensures Starts(HandedOut(arrivals, synth), i) == 1
    ensures SentInput(HandedOut(arrivals, synth), i) == RoutedTo(arrivals, i, synth)
  {
    NothingDropped(arrivals, synth);
    NothingIsLostOrRepeated(arrivals, i, synth);
  }

  // ----- opening before input, over whole deltas -----

  /** No input delta is empty. */
  ghost predicate Speaks(evs: seq<Event>) { forall k :: 0 <= k < |evs| && evs[k].ToolInput? ==> evs[k].text != "" }

  lemma {:induction false} EachSpeaks(s: State, fs: seq<Fragment>, synth: SynthId)
    ensures Speaks(TakeEach(s, fs, synth).events)
  {
    if fs == [] {
    } else {
      EachSpeaks(s, fs[..|fs| - 1], synth);
    }
  }

  lemma {:induction false} HandedOutSpeaks(arrivals: seq<Arrival>, synth: SynthId)
    ensures Speaks(HandedOut(arrivals, synth))
  {
    if arrivals == [] {
    } else {
      HandedOutSpeaks(arrivals[..|arrivals| - 1], synth);
      match arrivals[|arrivals| - 1]
      case Delta(fs) => EachSpeaks(Decoded(arrivals[..|arrivals| - 1], synth), fs, synth);
      case Other =>
    }
  }

  /** Input for a block has been sent exactly when some event says so. */
  lemma {:induction false} InputIsSomewhere(evs: seq<Event>, i: nat)
    requires Speaks(evs)
    ensures SentInput(evs, i) != "" <==> exists k :: 0 <= k < |evs| && evs[k].ToolInput? && evs[k].index == i
  {
    if evs == [] {
    } else {
      var n := |evs| - 1;
      InputIsSomewhere(evs[..n], i);
      if exists k :: 0 <= k < |evs| && evs[k].ToolInput? && evs[k].index == i {
        var k :| 0 <= k < |evs| && evs[k].ToolInput? && evs[k].index == i;
        if k < n { assert evs[..n][k] == evs[k]; }
      }
    }
  }

  lemma StartsPrefix(evs: seq<Event>, k: nat, i: nat)
    requires k <= |evs|
    ensures Starts(evs[..k], i) <= Starts(evs, i)
  {
    assert evs == evs[..k] + evs[k..];
    EventsConcat(evs[..k], evs[k..], i);
  }

  /** A block whose opening a refused delta kept back has sent nothing since. */
  ghost predicate StaysShut(out: seq<Event>, dropped: seq<Event>) {
    forall i: nat :: Starts(dropped, i) > 0 ==> SentInput(out, i) == ""
  }

  /** No input precedes the opening of its block, if and only if no block whose opening was
      kept back by a refused delta gets input from a later one. */
  lemma InputFollowsOpening(arrivals: seq<Arrival>, synth: SynthId)
    requires Synthesizes(synth)
    ensures OpenedFirst(HandedOut(arrivals, synth)) <==> StaysShut(HandedOut(arrivals, synth), Dropped(arrivals, synth))
  {
    var out, dropped := HandedOut(arrivals, synth), Dropped(arrivals, synth);
    HandedOutSpeaks(arrivals, synth);
    if OpenedFirst(out) {
      forall i: nat | Starts(dropped, i) > 0 ensures SentInput(out, i) == "" {
        NeverOpenedTwice(arrivals, i, synth);
        InputIsSomewhere(out, i);
        if k: nat :| k < |out| && out[k].ToolInput? && out[k].index == i { StartsPrefix(out, k, i); }
      }
    }
    if StaysShut(out, dropped) { ShutMeansOrdered(arrivals, synth); }
  }

  /** A stream is given up at the first delta that is refused.  Up to there, and with whatever
      that delta makes of it, no input precedes the opening of its block. */
  lemma InputFollowsUntilRefused(arrivals: seq<Arrival>, last: Arrival, synth: SynthId)
    requires Synthesizes(synth) && NoneRefused(arrivals, synth)
    ensures OpenedFirst(HandedOut(arrivals + [last], synth))
    ensures Latest(arrivals + [last], synth).failed ==> HandedOut(arrivals + [last], synth) == HandedOut(arrivals, synth)
  {
    var all := arrivals + [last];
    assert all[..|all| - 1] == arrivals;
    NothingDropped(arrivals, synth);
    if Latest(all, synth).failed {
      ConcatNothing(HandedOut(arrivals, synth));
      InputFollowsOpening(arrivals, synth);
    } else {
      ConcatNothing(Dropped(arrivals, synth));
      InputFollowsOpening(all, synth);
    }
  }

  lemma NeverOpenedTwice(arrivals: seq<Arrival>, i: nat, synth: SynthId)
    requires Synthesizes(synth)
    ensures Starts(HandedOut(arrivals, synth), i) + Starts(Dropped(arrivals, synth), i) <= 1
  {
    RunBalances(Handled(arrivals, synth), i, synth);
    HandedOutOrDropped(arrivals, i, synth);
  }

  lemma StaysShutBefore(arrivals: seq<Arrival>, synth: SynthId)
    requires arrivals != [] && StaysShut(HandedOut(arrivals, synth), Dropped(arrivals, synth))
    ensures var front := arrivals[..|arrivals| - 1]; StaysShut(HandedOut(front, synth), Dropped(front, synth))
  {
    var front, last := arrivals[..|arrivals| - 1], Latest(arrivals, synth);
    forall i: nat | Starts(Dropped(front, synth), i) > 0 ensures SentInput(HandedOut(front, synth), i) == "" {
      EventsConcat(HandedOut(front, synth), if last.failed then [] else last.events, i);
      EventsConcat(Dropped(front, synth), if last.failed then last.events else [], i);
    }
  }

  /** Appending events that each find their block open keeps the order. */
  lemma OrderedMore(out: seq<Event>, news: seq<Event>)
    requires OpenedFirst(out)
    requires forall k :: 0 <= k < |news| && news[k].ToolInput? && news[k].index >= 0 ==>
      Starts(out, news[k].index) + Starts(news[..k], news[k].index) > 0
    ensures OpenedFirst(out + news)
  {
    var all := out + news;
    forall k | 0 <= k < |all| && all[k].ToolInput? && all[k].index >= 0 ensures Starts(all[..k], all[k].index) > 0 {
      if k < |out| {
        assert all[..k] == out[..k];
      } else {
        StartsGrow(out, news, k - |out|, all[k].index);
      }
    }
  }

  lemma {:induction false} ShutMeansOrdered(arrivals: seq<Arrival>, synth: SynthId)
    requires Synthesizes(synth) && StaysShut(HandedOut(arrivals, synth), Dropped(arrivals, synth))
    ensures OpenedFirst(HandedOut(arrivals, synth))
  {
    if arrivals == [] {
    } else {
      var front, last := arrivals[..|arrivals| - 1], Latest(arrivals, synth);
      StaysShutBefore(arrivals, synth);
      ShutMeansOrdered(front, synth);
      if last.failed {
        ConcatNothing(HandedOut(front, synth));
      } else {
        forall k | 0 <= k < |last.events| && last.events[k].ToolInput? && last.events[k].index >= 0
          ensures Starts(HandedOut(front, synth), last.events[k].index) + Starts(last.events[..k], last.events[k].index) > 0
        {
          NewInputOrdered(arrivals, k, synth);
        }
        OrderedMore(HandedOut(front, synth), last.events);
      }
    }
  }

  lemma NewInputOrdered(arrivals: seq<Arrival>, k: nat, synth: SynthId)
    requires Synthesizes(synth) && arrivals != [] && !Latest(arrivals, synth).failed
    requires StaysShut(HandedOut(arrivals, synth), Dropped(arrivals, synth))
    requires var news := Latest(arrivals, synth).events; k < |news| && news[k].ToolInput? && news[k].index >= 0
    ensures var front, news := arrivals[..|arrivals| - 1], Latest(arrivals, synth).events;
      Starts(HandedOut(front, synth), news[k].index) + Starts(news[..k], news[k].index) > 0
  {
    var front, news := arrivals[..|arrivals| - 1], Latest(arrivals, synth).events;
    var i: nat := news[k].index;
    var said := Emitted(Handled(front, synth), synth);
    LatestRuns(arrivals, synth);
    EmittedInOrder(Handled(arrivals, synth), synth);
    assert (said + news)[|said| + k] == news[k];
    StartsGrow(said, news, k, i);
    HandedOutOrDropped(front, i, synth);
    HandedOutSpeaks(arrivals, synth);
    var out := HandedOut(arrivals, synth);
    assert out[|HandedOut(front, synth)| + k] == news[k];
    InputIsSomewhere(out, i);
    ConcatNothing(Dropped(front, synth));
  }

  // ----- the limit on slots -----

  /** The fragment brings a known id under an index not yet in use. */
  predicate IsAlias(s: State, f: Fragment, position: nat) {
    f.id != "" && f.id in s.byId && Where(f, position) !in s.toolSlots
  }

  /** The fragment brings a new id under an index whose slot carries another one. */
  predicate IsReuse(s: State, f: Fragment, position: nat) {
    Route(s, Where(f, position), f.id).None? && Where(f, position) in s.toolSlots
  }

  lemma UpdatedKeys<K, V>(m: map<K, V>, k: K, v: V)
    ensures m[k := v].Keys == m.Keys + {k} && (k in m ==> m[k := v].Keys == m.Keys)
  {}

  lemma SeatKeys(s: State, n: int, id: string)
    requires Inv(s) && !Refused(s, n, id)
    ensures var t, i := Seat(s, n, id), Target(s, n, id);
      && t.toolSlots.Keys == s.toolSlots.Keys + {n} && t.slots.Keys == s.slots.Keys + {i} && t.byId == s.byId
      && (i in s.slots <==> Route(s, n, id).Some?)
  {
    var i := Target(s, n, id);
    UpdatedKeys(s.toolSlots, n, i);
    UpdatedKeys(s.slots, i, NEW_SLOT);
    if Route(s, n, id).Some? { RouteIsKnown(s, n, id); }
  }

  lemma RouteIsKnown(s: State, n: int, id: string)
    requires Inv(s) && Route(s, n, id).Some?
    ensures Target(s, n, id) in s.slots
  {}

  lemma StoredKeys(s: State, f: Fragment, n: int, slot: Slot)
    requires Inv(s) && !Refused(s, n, f.id)
    ensures var t := Stored(s, f, n, slot);
      && t.toolSlots.Keys == s.toolSlots.Keys + {n} && t.slots.Keys == s.slots.Keys + {Target(s, n, f.id)}
      && t.byId.Keys == s.byId.Keys + (if f.id != "" then {f.id} else {})
  {
    var i, seated := Target(s, n, f.id), Seat(s, n, f.id);
    SeatKeys(s, n, f.id);
    UpdatedKeys(seated.slots, i, slot);
    UpdatedKeys(s.byId, f.id, i);
  }

  /** Whatever a fragment says, it leaves its slot stored. */
  lemma TakeStores(s: State, f: Fragment, position: nat, synth: SynthId)
    requires !Refused(s, Where(f, position), f.id)
    ensures var t, n := Take(s, f, position, synth).next, Where(f, position);
      Target(s, n, f.id) in t.slots && t == Stored(s, f, n, t.slots[Target(s, n, f.id)]).(callCounter := t.callCounter)
  {
    var n := Where(f, position);
    var slot := Filled(s, f, n);
    var more := slot.(pending := slot.pending + f.Input());
    if !slot.announced && slot.name != "" { AnnouncedIsStored(s, f, n, more, synth); }
  }

  /** What a fragment that is not refused makes known. */
  lemma TakeKeys(s: State, f: Fragment, position: nat, synth: SynthId)
    requires Inv(s) && !Refused(s, Where(f, position), f.id)
    ensures var t, n := Take(s, f, position, synth).next, Where(f, position);
      && t.toolSlots.Keys == s.toolSlots.Keys + {n}
      && t.slots.Keys == s.slots.Keys + {Target(s, n, f.id)}
      && t.byId.Keys == s.byId.Keys + (if f.id != "" then {f.id} else {})
  {
    var t, n := Take(s, f, position, synth).next, Where(f, position);
    TakeStores(s, f, position, synth);
    StoredKeys(s, f, n, t.slots[Target(s, n, f.id)]);
  }

  lemma CountWith<T>(was: set<T>, x: T)
    ensures |was + {x}| == |was| + (if x in was then 0 else 1)
  {
    if x in was { assert was + {x} == was; }
  }

  /** How many indices are in use after a fragment, and how many calls are known. */
  lemma SlotsAfter(s: State, f: Fragment, position: nat, synth: SynthId)
    requires Inv(s)
    ensures var t, n := Take(s, f, position, synth).next, Where(f, position);
      && |t.toolSlots| == |s.toolSlots| + (if !Refused(s, n, f.id) && n !in s.toolSlots then 1 else 0)
      && |t.slots| == |s.slots| + (if !Refused(s, n, f.id) && Route(s, n, f.id).None? then 1 else 0)
  {
    var t, n := Take(s, f, position, synth).next, Where(f, position);
    if !Refused(s, n, f.id) {
      TakeKeys(s, f, position, synth);
      CountWith(s.toolSlots.Keys, n);
      CountWith(s.slots.Keys, Target(s, n, f.id));
      SeatKeys(s, n, f.id);
      assert |t.toolSlots| == |t.toolSlots.Keys| && |s.toolSlots| == |s.toolSlots.Keys|;
      assert |t.slots| == |t.slots.Keys| && |s.slots| == |s.slots.Keys|;
    }
  }

  /** Fragment `k` is an alias when no index is left. */
  predicate Overruns(moves: seq<Move>, k: nat, synth: SynthId)
    requires k < |moves|
  {
    && moves[k].Deltas? && IsAlias(Run(moves[..k], synth), moves[k].fragment, moves[k].position)
    && |Run(moves[..k], synth).toolSlots| >= MAX_TOOL_SLOTS
  }

  /** Fragment `k` opens one call more than the limit, because indices are left. */
  predicate Crowds(moves: seq<Move>, k: nat, synth: SynthId)
    requires k < |moves|
  {
    && moves[k].Deltas?
    && var s := Run(moves[..k], synth);
       && Route(s, Where(moves[k].fragment, moves[k].position), moves[k].fragment.id).None?
       && |s.toolSlots| < MAX_TOOL_SLOTS <= |s.slots|
  }

  ghost predicate NoneOverruns(moves: seq<Move>, synth: SynthId) {
    forall k :: 0 <= k < |moves| ==> !Overruns(moves, k, synth)
  }

  ghost predicate NoneCrowds(moves: seq<Move>, synth: SynthId) {
    forall k :: 0 <= k < |moves| ==> !Crowds(moves, k, synth)
  }

  lemma LimitsSplit(moves: seq<Move>, synth: SynthId)
    requires moves != []
    ensures var n := |moves| - 1;
      && (NoneOverruns(moves, synth) <==> NoneOverruns(moves[..n], synth) && !Overruns(moves, n, synth))
      && (NoneCrowds(moves, synth) <==> NoneCrowds(moves[..n], synth) && !Crowds(moves, n, synth))
  {
    var n := |moves| - 1;
    forall k | 0 <= k < n
      ensures Overruns(moves[..n], k, synth) == Overruns(moves, k, synth)
      ensures Crowds(moves[..n], k, synth) == Crowds(moves, k, synth)
    {
      assert moves[..n][..k] == moves[..k];
    }
  }

  /** Over every run: the number of indices in use stays within the limit exactly when no known
      id comes under an unused index after the limit has been reached. */
  lemma {:induction false} IndicesWithinLimit(moves: seq<Move>, synth: SynthId)
    ensures |Run(moves, synth).toolSlots| <= MAX_TOOL_SLOTS <==> NoneOverruns(moves, synth)
  {
    if moves == [] {
    } else {
      var n := |moves| - 1;
      IndicesWithinLimit(moves[..n], synth);
      LimitsSplit(moves, synth);
      RunKeeps(moves[..n], synth);
      match moves[n]
      case Deltas(f, position) => SlotsAfter(Run(moves[..n], synth), f, position, synth);
      case OtherBlock =>
    }
  }

  /** Over every run: the number of calls stays within the limit exactly when no new call comes
      while that many are known and fewer indices are in use. */
  lemma {:induction false} CallsWithinLimit(moves: seq<Move>, synth: SynthId)
    ensures |Run(moves, synth).slots| <= MAX_TOOL_SLOTS <==> NoneCrowds(moves, synth)
  {
    if moves == [] {
    } else {
      var n := |moves| - 1;
      CallsWithinLimit(moves[..n], synth);
      LimitsSplit(moves, synth);
      RunKeeps(moves[..n], synth);
      match moves[n]
      case Deltas(f, position) => SlotsAfter(Run(moves[..n], synth), f, position, synth);
      case OtherBlock =>
    }
  }

  predicate ReusesAt(moves: seq<Move>, k: nat, synth: SynthId)
    requires k < |moves|
  {
    moves[k].Deltas? && IsReuse(Run(moves[..k], synth), moves[k].fragment, moves[k].position)
  }

  ghost predicate NoneReuses(moves: seq<Move>, synth: SynthId) {
    forall k :: 0 <= k < |moves| ==> !ReusesAt(moves, k, synth)
  }

  lemma ReuseSplit(moves: seq<Move>, synth: SynthId)
    requires moves != [] && NoneReuses(moves, synth)
    ensures var n := |moves| - 1; NoneReuses(moves[..n], synth) && !ReusesAt(moves, n, synth)
  {
    var n := |moves| - 1;
    forall k | 0 <= k < n ensures !ReusesAt(moves[..n], k, synth) {
      assert moves[..n][..k] == moves[..k] && !ReusesAt(moves, k, synth);
    }
  }

  /** As long as no index is reused, every call has an index of its own, and the limit holds. */
  lemma {:induction false} SlotsWithinIndices(moves: seq<Move>, synth: SynthId)
    requires NoneReuses(moves, synth)
    ensures |Run(moves, synth).slots| <= |Run(moves, synth).toolSlots|
    ensures |Run(moves, synth).slots| <= MAX_TOOL_SLOTS
  {
    if moves == [] {
    } else {
      var n := |moves| - 1;
      ReuseSplit(moves, synth);
      SlotsWithinIndices(moves[..n], synth);
      RunKeeps(moves[..n], synth);
      match moves[n]
      case Deltas(f, position) => SlotsAfter(Run(moves[..n], synth), f, position, synth);
      case OtherBlock =>
    }
  }

  // ----- runs that go beyond the limit -----

  function Name(k: nat): (name: string)
    ensures |name| == k + 1
  {
    if k == 0 then "c" else Name(k - 1) + "c"
  }

  /** A call of its own name under the given index. */
  function Call(index: int, k: nat): Move { Deltas(Fragment(Some(index), Name(k), "", "", false, None), 0) }

  function Calls(n: nat): seq<Move> { if n == 0 then [] else Calls(n - 1) + [Call(n - 1, n - 1)] }

  /** `n` calls, each under an index of its own. */
  ghost predicate Populated(s: State, n: nat) {
    && |s.toolSlots| == n && (forall k :: k in s.toolSlots ==> 0 <= k < n)
    && (forall id :: id in s.byId ==> |id| <= n) && (forall k: nat :: k < n ==> Name(k) in s.byId)
  }

  lemma OneMoreCall(s: State, n: nat, synth: SynthId)
    requires Inv(s) && Populated(s, n) && n < MAX_TOOL_SLOTS
    ensures Populated(Take(s, Call(n, n).fragment, 0, synth).next, n + 1)
  {
    NewCall(s, Call(n, n).fragment, Name(n), n, synth);
  }

  /** A fragment with a new id under a new index, as long as one is left. */
  lemma NewCall(s: State, f: Fragment, name: string, n: nat, synth: SynthId)
    requires Inv(s) && Populated(s, n) && n < MAX_TOOL_SLOTS && name == Name(n)
    requires f.index == Some(n) && f.id == name
    ensures Populated(Take(s, f, 0, synth).next, n + 1)
  {
    assert name !in s.byId;
    SlotsAfter(s, f, 0, synth);
    TakeKeys(s, f, 0, synth);
    OneMorePopulated(s, Take(s, f, 0, synth).next, n);
  }

  lemma OneMorePopulated(s: State, t: State, n: nat)
    requires Populated(s, n) && |t.toolSlots| == n + 1
    requires t.toolSlots.Keys == s.toolSlots.Keys + {n} && t.byId.Keys == s.byId.Keys + {Name(n)}
    ensures Populated(t, n + 1)
  {
    forall k: nat | k < n + 1 ensures Name(k) in t.byId {
      if k < n { assert Name(k) in s.byId.Keys; } else { assert Name(n) in t.byId.Keys; }
    }
    forall k | k in t.toolSlots ensures 0 <= k < n + 1 { assert k in t.toolSlots.Keys; }
    forall id | id in t.byId ensures |id| <= n + 1 { assert id in t.byId.Keys; }
  }

  lemma RunMore(moves: seq<Move>, f: Fragment, position: nat, synth: SynthId)
    ensures Run(moves + [Deltas(f, position)], synth) == Take(Run(moves, synth), f, position, synth).next
  {
    ConcatFront(moves, [Deltas(f, position)]);
    ConcatNothing(moves);
  }

  lemma FillsOneMore(moves: seq<Move>, n: nat, synth: SynthId)
    requires Populated(Run(moves, synth), n) && n < MAX_TOOL_SLOTS
    ensures Populated(Run(moves + [Call(n, n)], synth), n + 1)
  {
    RunKeeps(moves, synth);
    RunMore(moves, Call(n, n).fragment, 0, synth);
    OneMoreCall(Run(moves, synth), n, synth);
  }

  lemma NothingFilled(synth: SynthId)
    ensures Populated(Run([], synth), 0)
  {}

  lemma {:induction false} CallsFill(n: nat, synth: SynthId)
    requires n <= MAX_TOOL_SLOTS
    ensures Populated(Run(Calls(n), synth), n)
  {
    if n == 0 {
      NothingFilled(synth);
    } else {
      CallsFill(n - 1, synth);
      var front := Calls(n - 1);
      assert Calls(n) == front + [Call(n - 1, n - 1)];
      FillsOneMore(front, n - 1, synth);
    }
  }

  /** The limit counts indices in use, not calls, and yet does not bound even those: with every
      index in use, the first call coming again under another index takes one more. */
  lemma AliasesEvadeTheLimit(synth: SynthId)
    ensures var moves := Calls(MAX_TOOL_SLOTS) + [Call(MAX_TOOL_SLOTS, 0)];
      |Run(moves, synth).toolSlots| == MAX_TOOL_SLOTS + 1 && !NoneOverruns(moves, synth)
  {
    var moves, s := Calls(MAX_TOOL_SLOTS) + [Call(MAX_TOOL_SLOTS, 0)], Run(Calls(MAX_TOOL_SLOTS), synth);
    CallsFill(MAX_TOOL_SLOTS, synth);
    RunKeeps(Calls(MAX_TOOL_SLOTS), synth);
    ConcatFront(Calls(MAX_TOOL_SLOTS), [Call(MAX_TOOL_SLOTS, 0)]);
    ConcatNothing(Calls(MAX_TOOL_SLOTS));
    SlotsAfter(s, Call(MAX_TOOL_SLOTS, 0).fragment, 0, synth);
    IndicesWithinLimit(moves, synth);
  }

  /** The same calls, one delta each. */
  function Singles(n: nat): seq<Arrival> {
    if n == 0 then [] else Singles(n - 1) + [Delta([Call(n - 1, n - 1).fragment])]
  }

  lemma HandledMore(arrivals: seq<Arrival>, f: Fragment, synth: SynthId)
    ensures Handled(arrivals + [Delta([f])], synth) == Handled(arrivals, synth) + [Deltas(f, 0)]
  {
    ConcatFront(arrivals, [Delta([f])]);
    ConcatNothing(arrivals);
    assert [f][..0] == [];
    assert Steps(Decoded(arrivals, synth), [f], synth) == [Deltas(f, 0)];
  }

  lemma {:induction false} SinglesHandled(n: nat, synth: SynthId)
    ensures Handled(Singles(n), synth) == Calls(n)
  {
    if n == 0 {
    } else {
      SinglesHandled(n - 1, synth);
      HandledMore(Singles(n - 1), Call(n - 1, n - 1).fragment, synth);
    }
  }

  const OPENING := Fragment(Some(MAX_TOOL_SLOTS - 1), "", "f", "", false, None)
  const EXCESS := Fragment(Some(MAX_TOOL_SLOTS), "", "", "", false, None)

  lemma OpeningOpens(s: State, synth: SynthId)
    requires Inv(s) && Populated(s, MAX_TOOL_SLOTS - 1)
    ensures var first := Take(s, OPENING, 0, synth);
      && !first.failed && Starts(first.events, s.next) == 1
      && s.next in first.next.slots && first.next.slots[s.next].announced
      && Refused(first.next, MAX_TOOL_SLOTS, "")
  {
    var first := Take(s, OPENING, 0, synth);
    SlotsAfter(s, OPENING, 0, synth);
    TakeKeys(s, OPENING, 0, synth);
    EventsOne(first.events[0], s.next);
    assert first.events == [first.events[0]];
    assert MAX_TOOL_SLOTS !in first.next.toolSlots.Keys;
  }

  /** From the state with one index left, a delta that opens a call and then asks for one index
      more says nothing, and the call counts as opened. */
  lemma LastIndexLost(s: State, synth: SynthId)
    requires Inv(s) && Populated(s, MAX_TOOL_SLOTS - 1)
    ensures var each := TakeEach(s, [OPENING, EXCESS], synth);
      each.failed && Starts(each.events, s.next) == 1 && s.next in each.next.slots && each.next.slots[s.next].announced
  {
    var first := Take(s, OPENING, 0, synth);
    OpeningOpens(s, synth);
    assert [OPENING, EXCESS][..1] == [OPENING] && [OPENING][..0] == [];
    ConcatNothing(first.events);
    assert TakeEach(s, [OPENING], synth) == first;
  }

  /** A run in which a refused delta loses the opening of a call. */
  lemma RefusalLoses(synth: SynthId)
    requires Synthesizes(synth)
    ensures var before := Singles(MAX_TOOL_SLOTS - 1);
      var arrivals, i := before + [Delta([OPENING, EXCESS])], Decoded(before, synth).next;
      && i in Decoded(arrivals, synth).slots && Decoded(arrivals, synth).slots[i].announced
      && Starts(HandedOut(arrivals, synth), i) == 0
  {
    var before := Singles(MAX_TOOL_SLOTS - 1);
    var arrivals, s := before + [Delta([OPENING, EXCESS])], Decoded(before, synth);
    SinglesHandled(MAX_TOOL_SLOTS - 1, synth);
    CallsFill(MAX_TOOL_SLOTS - 1, synth);
    RunKeeps(Calls(MAX_TOOL_SLOTS - 1), synth);
    LastIndexLost(s, synth);
    ConcatFront(before, [Delta([OPENING, EXCESS])]);
    ConcatNothing(before);
    LatestRuns(arrivals, synth);
    NeverOpenedTwice(arrivals, s.next, synth);
    EventsConcat(Dropped(before, synth), Latest(arrivals, synth).events, s.next);
  }

  function Reuse(id: string): Move { Deltas(Fragment(Some(0), id, "", "", false, None), 0) }

  function Reuses(ids: seq<string>): seq<Move> {
    if ids == [] then [] else Reuses(ids[..|ids| - 1]) + [Reuse(ids[|ids| - 1])]
  }

  lemma ReuseStep(s: State, m: nat, id: string, synth: SynthId)
    requires Inv(s) && s.next == m && s.toolSlots == (if m == 0 then map[] else map[0 := m - 1])
    requires id != "" && id !in s.byId
    requires m > 0 ==> m - 1 in s.slots && s.slots[m - 1].id != "" && s.slots[m - 1].id != id
    ensures var t := Take(s, Reuse(id).fragment, 0, synth).next;
      && t.next == m + 1 && t.toolSlots == map[0 := m] && t.byId == s.byId[id := m]
      && m in t.slots && t.slots[m].id == id
  {
    assert |s.toolSlots| <= 1;
  }

  /** One slot per id, all of them behind index 0. */
  ghost predicate Crowded(s: State, ids: seq<string>) {
    && s.next == |ids| == |s.slots| && s.toolSlots == (if ids == [] then map[] else map[0 := |ids| - 1 as nat])
    && (forall id :: id in s.byId ==> id in ids)
    && (forall k :: 0 <= k < |ids| ==> ids[k] in s.byId && s.byId[ids[k]] == k)
  }

  /** A call that comes with a new id under an index in use gets a block of its own, and the
      number of indices in use stays the same: any number of calls can share one index. */
  lemma {:induction false} ReuseEvadesTheLimit(ids: seq<string>, synth: SynthId)
    requires forall j, k :: 0 <= j < k < |ids| ==> ids[j] != ids[k]
    requires "" !in ids
    ensures Crowded(Run(Reuses(ids), synth), ids)
  {
    if ids == [] {
    } else {
      var n := |ids| - 1;
      var front, moves := ids[..n], Reuses(ids);
      assert "" !in front;
      ReuseEvadesTheLimit(front, synth);
      RunKeeps(Reuses(front), synth);
      assert moves[..|moves| - 1] == Reuses(front) && moves[|moves| - 1] == Reuse(ids[n]);
      CrowdGrows(Run(Reuses(front), synth), front, ids[n], synth);
      assert ids == front + [ids[n]];
    }
  }

  lemma CrowdGrows(s: State, ids: seq<string>, id: string, synth: SynthId)
    requires Inv(s) && Crowded(s, ids) && id != "" && id !in ids && "" !in ids
    requires forall j, k :: 0 <= j < k < |ids| ==> ids[j] != ids[k]
    ensures Crowded(Take(s, Reuse(id).fragment, 0, synth).next, ids + [id])
  {
    var m := |ids|;
    if m > 0 { assert ids[m - 1] in ids && s.byId[ids[m - 1]] == m - 1; }
    ReuseStep(s, m, id, synth);
    SlotsAfter(s, Reuse(id).fragment, 0, synth);
    var t, all := Take(s, Reuse(id).fragment, 0, synth).next, ids + [id];
    forall k | 0 <= k < |all| ensures all[k] in t.byId && t.byId[all[k]] == k {
      if k < m { assert all[k] == ids[k] && ids[k] in ids; }
    }
  }
}
