/** Server-sent events, read and written: backend/codec/sse.go and the keep-alive comment of
    backend/codec/codec.go.  A `char` is one byte.

    The field grammar is section 9.2.6 of the WHATWG HTML standard, as far as the scanner
    follows it. */
module Sse {
  import opened Ir
  import opened Seqs

  const MAX_FRAME_BYTES := 33554432
  const MAX_LINE_BYTES := MAX_FRAME_BYTES + 2

  datatype Frame = Frame(event: string, data: string)

  // ----- lines -----

  /** Where the first `c` stands; the length of `s` when there is none. */
  function IndexOf(s: string, c: char): (k: nat)
    ensures k <= |s| && (k < |s| ==> s[k] == c) && forall i :: 0 <= i < k ==> s[i] != c
  {
    if s == "" || s[0] == c then 0 else 1 + IndexOf(s[1..], c)
  }

  function TrimEnd(s: string): (t: string)
    ensures t <= s && (t == "" || (t[|t| - 1] != '\r' && t[|t| - 1] != '\n'))
    ensures forall i :: |t| <= i < |s| ==> s[i] == '\r' || s[i] == '\n'
  {
    if s != "" && (s[|s| - 1] == '\r' || s[|s| - 1] == '\n') then TrimEnd(s[..|s| - 1]) else s
  }

  /** What `readLine` finds at the head of the remaining bytes. */
  datatype LineRead = Line(text: string, rest: string) | NoMore | TooLong

  /** The line at the head with its terminator, if it has one. */
  function RawLine(rest: string): (raw: string)
    ensures raw <= rest && (rest != "" ==> raw != "")
  {
    var k := IndexOf(rest, '\n');
    if k < |rest| then rest[..k + 1] else rest
  }

  function ReadLine(rest: string): LineRead {
    if rest == "" then NoMore
    else
      var raw := RawLine(rest);
      if |raw| > MAX_LINE_BYTES then TooLong else Line(TrimEnd(raw), rest[|raw|..])
  }

  function SplitField(line: string): (string, string) {
    var k := IndexOf(line, ':');
    if k == |line| then (line, "")
    else
      var value := line[k + 1..];
      (line[..k], if value != "" && value[0] == ' ' then value[1..] else value)
  }

  predicate KnownField(name: string) {
    name == "event" || name == "data" || name == "id" || name == "retry"
  }

  // ----- frames -----

  datatype ReadError = EndOfInput | ShortBuffer

  /** A call of `Scan`: the frame it delivers, if any, what is left, and the error that all
      later calls will see. */
  datatype Scanned = Scanned(frame: Option<Frame>, rest: string, err: Option<ReadError>)

  /** The frame under construction. */
  datatype Draft = Draft(event: string, data: string, saw: bool)

  const NO_DRAFT := Draft("", "", false)

  function Finished(d: Draft): Option<Frame> { if d.saw then Some(Frame(d.event, d.data)) else None }

  function AddData(data: string, value: string): string {
    if |data| > 0 then data + "\n" + value else value
  }

  function TakeField(d: Draft, line: string): Draft {
    var (field, value) := SplitField(line);
    if field == "event" then d.(event := value, saw := true)
    else if field == "data" then d.(data := AddData(d.data, value), saw := true)
    else if KnownField(field) then d.(saw := true)
    else d
  }

  function ScanLines(rest: string, d: Draft): Scanned
    decreases |rest|
  {
    match ReadLine(rest)
    case NoMore => Scanned(Finished(d), rest, Some(EndOfInput))
    case TooLong => Scanned(Finished(d), rest, Some(ShortBuffer))
    case Line(line, after) =>
      if line == "" then
        if d.saw then Scanned(Finished(d), after, None) else ScanLines(after, d)
      else if line[0] == ':' then ScanLines(after, d)
      else
        var next := TakeField(d, line);
        if |next.data| > MAX_FRAME_BYTES then Scanned(None, after, Some(ShortBuffer)) else ScanLines(after, next)
  }

  function Scan(rest: string): Scanned { ScanLines(rest, NO_DRAFT) }

  // ----- the scanner itself, over a buffered reader -----

  datatype SliceEnd = AtDelimiter | BufferFull | AtError

  /** A buffered reader: what the connection will still deliver, and the buffer size. */
  class ByteSource {
    var rest: string
    const bufSize: nat

    constructor (bytes: string, bufSize: nat)
      requires bufSize > 0
      ensures rest == bytes && this.bufSize == bufSize
    {
      rest, this.bufSize := bytes, bufSize;
    }

    /** `bufio.Reader.ReadSlice`: up to the next line feed, a full buffer, or the end. */
    method ReadSlice() returns (chunk: string, end: SliceEnd)
      requires bufSize > 0
      modifies this
      ensures old(rest) == chunk + rest
      ensures end.AtDelimiter? ==> chunk == RawLine(old(rest)) && chunk != "" && chunk[|chunk| - 1] == '\n'
      ensures !end.AtDelimiter? ==> IndexOf(chunk, '\n') == |chunk|
      ensures end.BufferFull? ==> chunk != ""
      ensures end.AtError? ==> rest == ""
    {
      var k := IndexOf(rest, '\n');
      var n;
      if k < bufSize && k < |rest| {
        n, end := k + 1, AtDelimiter;
      } else if |rest| >= bufSize {
        n, end := bufSize, BufferFull;
      } else {
        n, end := |rest|, AtError;
      }
      chunk := rest[..n];
      if end != AtDelimiter {
        forall i | 0 <= i < |chunk| ensures chunk[i] != '\n' { assert chunk[i] == rest[i]; }
      }
      rest := rest[n..];
    }
  }

  lemma Unbroken(s: string, c: char)
    requires c !in s
    ensures IndexOf(s, c) == |s|
  {
    forall i | 0 <= i < |s| ensures s[i] != c { assert s[i] in s; }
  }

  lemma IndexPast(a: string, b: string, c: char)
    requires IndexOf(a, c) == |a|
    ensures IndexOf(a + b, c) == |a| + IndexOf(b, c)
  {
    var k, m, s := IndexOf(b, c), IndexOf(a + b, c), a + b;
    forall i | 0 <= i < |a| ensures s[i] != c { assert s[i] == a[i]; }
    if k < |b| { assert s[|a| + k] == c; }
    if m < |s| { assert b[m - |a|] == c; }
  }

  lemma RawLineAfter(buf: string, rest: string)
    requires IndexOf(buf, '\n') == |buf|
    ensures RawLine(buf + rest) == buf + RawLine(rest)
  {
    IndexPast(buf, rest, '\n');
  }

  class FrameScanner {
    const r: ByteSource
    var frame: Frame
    var data: string
    var err: Option<ReadError>

    constructor (r: ByteSource)
      ensures this.r == r && err == None
    {
      this.r := r;
      frame, data, err := Frame("", ""), "", None;
    }

    /** However the buffer cuts the input, the line is the same. */
    method ReadOneLine() returns (read: LineRead)
      requires r.bufSize > 0
      modifies r
      ensures read == ReadLine(old(r.rest))
      ensures read.NoMore? ==> r.rest == old(r.rest)
      ensures read.Line? ==> r.rest == read.rest
    {
      var buf := "";
      ghost var all := r.rest;
      while true
        invariant all == buf + r.rest && IndexOf(buf, '\n') == |buf| <= MAX_LINE_BYTES
        decreases |r.rest|
      {
        ghost var before, left := buf, r.rest;
        var chunk, end := r.ReadSlice();
        buf := buf + chunk;
        ReadStep(all, before, left, chunk, r.rest, end);
        if |buf| > MAX_LINE_BYTES {
          LongLine(all, buf, end);
          return TooLong;
        }
        if end == BufferFull {
          continue;
        }
        if end == AtError && |chunk| == 0 && |buf| == 0 {
          return NoMore;
        }
        WholeLine(all, buf, r.rest, end);
        return Line(TrimEnd(buf), r.rest);
      }
    }

    method TakeLine(line: string, saw: bool) returns (saw': bool)
      requires line != ""
      modifies this`frame, this`data
      ensures Draft(frame.event, data, saw') == TakeField(Draft(old(frame.event), old(data), saw), line)
    {
      var (field, value) := SplitField(line);
      saw' := saw;
      if field == "event" {
        frame, saw' := frame.(event := value), true;
      } else if field == "data" {
        if |data| > 0 {
          data := data + "\n";
        }
        data, saw' := data + value, true;
      } else if KnownField(field) {
        saw' := true;
      }
    }

    /** `false` when there is no further frame; `err` then says why. */
    method ScanFrame() returns (more: bool)
      requires r.bufSize > 0
      modifies this, r
      ensures old(err).Some? ==> !more && err == old(err) && r.rest == old(r.rest)
      ensures old(err).None? ==>
        var s := Scan(old(r.rest));
        && more == s.frame.Some? && (more ==> frame == s.frame.value) && err == s.err
        && (err.None? ==> r.rest == s.rest)
    {
      if err.Some? {
        return false;
      }
      frame, data := Frame("", ""), "";
      var saw := false;
      while true
        invariant err.None? && ScanLines(r.rest, Draft(frame.event, data, saw)) == Scan(old(r.rest))
        decreases |r.rest|
      {
        ghost var draft := Draft(frame.event, data, saw);
        var read := ReadOneLine();
        if read.NoMore? || read.TooLong? {
          err := Some(if read.NoMore? then EndOfInput else ShortBuffer);
          frame := frame.(data := data);
          return saw;
        }
        var line := read.text;
        if line == "" {
          if !saw {
            continue;
          }
          frame := frame.(data := data);
          return true;
        }
        if line[0] == ':' {
          continue;
        }
        saw := TakeLine(line, saw);
        if |data| > MAX_FRAME_BYTES {
          err := Some(ShortBuffer);
          return false;
        }
      }
    }
  }

  lemma ReadStep(all: string, before: string, left: string, chunk: string, rest: string, end: SliceEnd)
    requires all == before + left && left == chunk + rest && IndexOf(before, '\n') == |before|
    requires if end == AtDelimiter then chunk == RawLine(left) else IndexOf(chunk, '\n') == |chunk|
    ensures all == before + chunk + rest
    ensures if end == AtDelimiter then before + chunk == RawLine(all) else IndexOf(before + chunk, '\n') == |before + chunk|
  {
    if end == AtDelimiter { RawLineAfter(before, left); } else { IndexPast(before, chunk, '\n'); }
  }

  lemma LongLine(all: string, buf: string, end: SliceEnd)
    requires buf <= all && |buf| > MAX_LINE_BYTES
    requires if end == AtDelimiter then buf == RawLine(all) else IndexOf(buf, '\n') == |buf|
    ensures ReadLine(all) == TooLong
  {
    if end != AtDelimiter {
      assert all == buf + all[|buf|..];
      RawLineAfter(buf, all[|buf|..]);
    }
  }

  lemma WholeLine(all: string, buf: string, rest: string, end: SliceEnd)
    requires all == buf + rest && buf != "" && |buf| <= MAX_LINE_BYTES
    requires if end == AtDelimiter then buf == RawLine(all) else rest == "" && IndexOf(buf, '\n') == |buf|
    ensures ReadLine(all) == Line(TrimEnd(buf), rest)
  {
    if end != AtDelimiter { assert all == buf; }
    assert RawLine(all) == buf && all[|buf|..] == rest;
  }

  // ----- writing -----

  function SplitLines(data: string): (lines: seq<string>)
    ensures lines != []
    decreases |data|
  {
    var k := IndexOf(data, '\n');
    if k == |data| then [data] else [data[..k]] + SplitLines(data[k + 1..])
  }

  function EncodeLines(lines: seq<string>): string {
    if lines == [] then "" else DataLine(lines[0]) + EncodeLines(lines[1..])
  }

  function DataLine(line: string): string { "data: " + line + "\n" }

  function EventLine(event: string): string { if event == "" then "" else "event: " + event + "\n" }

  function Encode(f: Frame): string {
    EventLine(f.event) + EncodeLines(SplitLines(f.data)) + "\n"
  }

  function EncodeRest(rest: string): string {
    var k := IndexOf(rest, '\n');
    if k == |rest| then "" else EncodeLines(SplitLines(rest[k + 1..]))
  }

  lemma EncodeSplit(rest: string)
    ensures EncodeLines(SplitLines(rest)) == DataLine(rest[..IndexOf(rest, '\n')]) + EncodeRest(rest)
  {
    var k, lines := IndexOf(rest, '\n'), SplitLines(rest);
    if k == |rest| {
      assert lines == [rest] && lines[1..] == [] && rest[..k] == rest;
    } else {
      assert lines == [rest[..k]] + SplitLines(rest[k + 1..]) && lines[1..] == SplitLines(rest[k + 1..]);
    }
  }

  lemma EncodeLinesStep(out: string, rest: string)
    ensures out + EncodeLines(SplitLines(rest)) == (out + DataLine(rest[..IndexOf(rest, '\n')])) + EncodeRest(rest)
  {
    EncodeSplit(rest);
    Associate(out, DataLine(rest[..IndexOf(rest, '\n')]), EncodeRest(rest));
  }

  method EncodeFrame(event: string, data: string) returns (out: string)
    ensures out == Encode(Frame(event, data))
  {
    out := "";
    if event != "" {
      out := "event: " + event + "\n";
    }
    var rest, more := data, true;
    ghost var whole := EventLine(event) + EncodeLines(SplitLines(data));
    while more
      invariant whole == out + (if more then EncodeLines(SplitLines(rest)) else "")
      decreases more, |rest|
    {
      var k := IndexOf(rest, '\n');
      EncodeLinesStep(out, rest);
      out := out + DataLine(rest[..k]);
      if k == |rest| {
        more := false;
      } else {
        rest := rest[k + 1..];
      }
    }
    assert out + "" == out;
    out := out + "\n";
  }

  // ----- what a scanner can deliver -----

  predicate CleanEnd(s: string) { s == "" || s[|s| - 1] != '\r' }

  predicate CanonicalEvent(event: string) { '\n' !in event && CleanEnd(event) }

  /** No leading line feed, and no carriage return at the end of a line. */
  predicate CanonicalData(data: string) {
    && (data != "" ==> data[0] != '\n')
    && forall i :: 0 <= i < |data| && data[i] == '\r' ==> i + 1 < |data| && data[i + 1] != '\n'
  }

  predicate Canonical(f: Frame) {
    CanonicalEvent(f.event) && CanonicalData(f.data) && |f.data| <= MAX_FRAME_BYTES
  }

  predicate CanonicalDraft(d: Draft) {
    CanonicalEvent(d.event) && CanonicalData(d.data) && |d.data| <= MAX_FRAME_BYTES
  }

  lemma LineIsClean(rest: string)
    requires ReadLine(rest).Line?
    ensures '\n' !in ReadLine(rest).text && CleanEnd(ReadLine(rest).text)
  {
    var raw := RawLine(rest);
    var t := TrimEnd(raw);
    forall i | 0 <= i < |t| ensures t[i] != '\n' {
      if i < |raw| - 1 { assert raw[i] == rest[i]; }
    }
  }

  lemma ValueIsClean(line: string)
    requires '\n' !in line && CleanEnd(line)
    ensures '\n' !in SplitField(line).1 && CleanEnd(SplitField(line).1)
  {
    var value := SplitField(line).1;
    assert forall i :: 0 <= i < |value| ==> value[i] == line[|line| - |value| + i] && line[|line| - |value| + i] in line;
  }

  lemma FieldKeepsCanonical(d: Draft, line: string)
    requires CanonicalDraft(d) && '\n' !in line && CleanEnd(line)
    ensures var next := TakeField(d, line); |next.data| <= MAX_FRAME_BYTES ==> CanonicalDraft(next)
  {
    ValueIsClean(line);
    var value := SplitField(line).1;
    var data := AddData(d.data, value);
    forall i | 0 <= i < |data| && data[i] == '\r' ensures i + 1 < |data| && data[i + 1] != '\n' {
      if |d.data| > 0 && i < |d.data| {
        assert d.data[i] == '\r';
      } else {
        var at := if |d.data| > 0 then i - |d.data| - 1 else i;
        assert value[at] == '\r' && value[at] in value;
        assert at + 1 < |value| ==> value[at + 1] in value;
      }
    }
    if data != "" && |d.data| == 0 { assert data[0] in value; }
  }

  /** Every frame a scanner ever delivers is in canonical form. */
  lemma {:induction false} ScannedIsCanonical(rest: string, d: Draft)
    requires CanonicalDraft(d)
    ensures var s := ScanLines(rest, d); s.frame.Some? ==> Canonical(s.frame.value)
    decreases |rest|
  {
    match ReadLine(rest)
    case NoMore =>
    case TooLong =>
    case Line(line, after) =>
      LineIsClean(rest);
      if line == "" {
        if !d.saw { ScannedIsCanonical(after, d); }
      } else if line[0] == ':' {
        ScannedIsCanonical(after, d);
      } else {
        FieldKeepsCanonical(d, line);
        if |TakeField(d, line).data| <= MAX_FRAME_BYTES { ScannedIsCanonical(after, TakeField(d, line)); }
      }
  }

  // ----- reading back what was written -----

  lemma TrimOne(line: string)
    requires '\n' !in line
    ensures TrimEnd(line + "\n") == TrimEnd(line)
    ensures CleanEnd(line) ==> TrimEnd(line) == line
  {
    assert (line + "\n")[..|line|] == line;
    if line != "" { assert line[|line| - 1] in line; }
  }

  lemma RawLineBack(line: string, tail: string)
    requires '\n' !in line
    ensures RawLine(line + "\n" + tail) == line + "\n"
    ensures (line + "\n" + tail)[|line| + 1..] == tail
  {
    var all := line + "\n" + tail;
    Unbroken(line, '\n');
    assert all == line + ("\n" + tail);
    assert IndexOf("\n" + tail, '\n') == 0;
    IndexPast(line, "\n" + tail, '\n');
    assert all[..|line| + 1] == line + "\n";
  }

  /** One written line is read as that line. */
  lemma LineReadBack(line: string, tail: string)
    requires '\n' !in line && CleanEnd(line)
    ensures ReadLine(line + "\n" + tail) == if |line| + 1 > MAX_LINE_BYTES then TooLong else Line(line, tail)
  {
    RawLineBack(line, tail);
    TrimOne(line);
  }

  predicate FitsLine(prefix: nat, line: string) { prefix + |line| + 1 <= MAX_LINE_BYTES }

  /** The size limits, line by line. */
  predicate Fits(f: Frame) {
    && (f.event != "" ==> FitsLine(7, f.event))
    && forall i :: 0 <= i < |SplitLines(f.data)| ==> FitsLine(6, SplitLines(f.data)[i])
  }

  lemma SplitEventField(event: string)
    ensures SplitField("event: " + event) == ("event", event)
  {
    var line := "event: " + event;
    assert line[0] != ':' && line[1] != ':' && line[2] != ':' && line[3] != ':' && line[4] != ':' && line[5] == ':';
    assert IndexOf(line, ':') == 5;
    assert line[..5] == "event" && line[6..] == " " + event && (" " + event)[1..] == event;
  }

  lemma SplitDataField(value: string)
    ensures SplitField("data: " + value) == ("data", value)
  {
    var line := "data: " + value;
    assert line[0] != ':' && line[1] != ':' && line[2] != ':' && line[3] != ':' && line[4] == ':';
    assert IndexOf(line, ':') == 4;
    assert line[..4] == "data" && line[5..] == " " + value && (" " + value)[1..] == value;
  }

  lemma EventReadBack(event: string, tail: string)
    requires CanonicalEvent(event)
    ensures ScanLines("event: " + event + "\n" + tail, NO_DRAFT) ==
      if FitsLine(7, event) then ScanLines(tail, Draft(event, "", true))
      else Scanned(None, "event: " + event + "\n" + tail, Some(ShortBuffer))
  {
    var line := "event: " + event;
    assert '\n' !in line && CleanEnd(line) by {
      forall c | c in line ensures c != '\n' { assert c in "event: " || c in event; }
    }
    LineReadBack(line, tail);
    SplitEventField(event);
    assert line[0] == 'e';
  }

  lemma DataLineReadBack(line: string, tail: string, d: Draft)
    requires '\n' !in line && CleanEnd(line) && |AddData(d.data, line)| <= MAX_FRAME_BYTES
    ensures var all := "data: " + line + "\n" + tail;
      if FitsLine(6, line) then ScanLines(all, d) == ScanLines(tail, d.(data := AddData(d.data, line), saw := true))
      else ScanLines(all, d).err == Some(ShortBuffer)
  {
    var full := "data: " + line;
    assert '\n' !in full && CleanEnd(full) by {
      forall c | c in full ensures c != '\n' { assert c in "data: " || c in line; }
    }
    LineReadBack(full, tail);
    SplitDataField(line);
    assert full[0] == 'd';
  }

  /** Joining the lines of `data` after what is already there. */
  function Joined(data: string, lines: seq<string>): string
    decreases |lines|
  {
    if lines == [] then data else Joined(AddData(data, lines[0]), lines[1..])
  }

  predicate CleanLines(lines: seq<string>) {
    forall i :: 0 <= i < |lines| ==> '\n' !in lines[i] && CleanEnd(lines[i])
  }

  lemma {:induction false} JoinedGrows(data: string, lines: seq<string>)
    ensures |data| <= |Joined(data, lines)|
    decreases |lines|
  {
    if lines == [] {
    } else {
      JoinedGrows(AddData(data, lines[0]), lines[1..]);
    }
  }

  lemma {:induction false} DataReadBack(lines: seq<string>, tail: string, d: Draft)
    requires CleanLines(lines) && |Joined(d.data, lines)| <= MAX_FRAME_BYTES && (lines != [] || d.saw)
    ensures var s := ScanLines(EncodeLines(lines) + "\n" + tail, d);
      if forall i :: 0 <= i < |lines| ==> FitsLine(6, lines[i])
      then s == Scanned(Some(Frame(d.event, Joined(d.data, lines))), tail, None)
      else s.err == Some(ShortBuffer)
    decreases lines
  {
    if lines == [] {
      assert EncodeLines(lines) + "\n" + tail == "" + "\n" + tail;
      LineReadBack("", tail);
    } else {
      var rest := EncodeLines(lines[1..]) + "\n" + tail;
      JoinedGrows(AddData(d.data, lines[0]), lines[1..]);
      assert EncodeLines(lines) + "\n" + tail == "data: " + lines[0] + "\n" + rest;
      DataLineReadBack(lines[0], rest, d);
      if FitsLine(6, lines[0]) {
        DataReadBack(lines[1..], tail, d.(data := AddData(d.data, lines[0]), saw := true));
        assert (forall i :: 0 <= i < |lines| ==> FitsLine(6, lines[i]))
          <==> forall i :: 0 <= i < |lines[1..]| ==> FitsLine(6, lines[1..][i]) by {
          if forall i :: 0 <= i < |lines[1..]| ==> FitsLine(6, lines[1..][i]) {
            forall i | 0 <= i < |lines| ensures FitsLine(6, lines[i]) {
              if i > 0 { assert lines[1..][i - 1] == lines[i]; }
            }
          }
        }
      }
    }
  }

  lemma SplitHead(data: string)
    ensures var k, lines := IndexOf(data, '\n'), SplitLines(data);
      lines[0] == data[..k] && lines[1..] == if k == |data| then [] else SplitLines(data[k + 1..])
  {}

  lemma JoinAround(before: string, data: string, k: nat)
    requires k < |data| && data[k] == '\n'
    ensures before + "\n" + data[..k] + "\n" + data[k + 1..] == before + "\n" + data
  {
    Recombined(data, k);
    Associate(before + "\n", data[..k], "\n");
    Associate(before + "\n", data[..k] + "\n", data[k + 1..]);
  }

  /** Splitting loses nothing once something has been joined. */
  lemma {:induction false} SplitThenJoin(before: string, data: string)
    requires before != ""
    ensures Joined(before, SplitLines(data)) == before + "\n" + data
    decreases |data|
  {
    var k, lines := IndexOf(data, '\n'), SplitLines(data);
    SplitHead(data);
    assert Joined(before, lines) == Joined(before + "\n" + data[..k], lines[1..]);
    if k < |data| {
      SplitThenJoin(before + "\n" + data[..k], data[k + 1..]);
      JoinAround(before, data, k);
    }
  }

  lemma FirstLine(x: string, rest: seq<string>)
    ensures Joined("", [x] + rest) == Joined(x, rest)
  {
    assert ([x] + rest)[1..] == rest;
  }

  lemma SplitThenJoinAll(data: string)
    requires data != "" ==> data[0] != '\n'
    ensures Joined("", SplitLines(data)) == data
  {
    var k := IndexOf(data, '\n');
    if k == |data| {
      FirstLine(data, []);
      ConcatNothing([data]);
    } else {
      FirstLine(data[..k], SplitLines(data[k + 1..]));
      SplitThenJoin(data[..k], data[k + 1..]);
      Recombined(data, k);
    }
  }

  lemma Recombined(data: string, k: nat)
    requires k < |data| && data[k] == '\n'
    ensures data[..k] + "\n" + data[k + 1..] == data
  {}

  lemma {:induction false} SplitIsClean(data: string)
    requires forall i :: 0 <= i < |data| && data[i] == '\r' ==> i + 1 < |data| && data[i + 1] != '\n'
    ensures CleanLines(SplitLines(data))
    decreases |data|
  {
    var k, lines := IndexOf(data, '\n'), SplitLines(data);
    var head := data[..k];
    assert '\n' !in head && CleanEnd(head) by {
      if head != "" { assert head[k - 1] == data[k - 1]; }
    }
    if k < |data| {
      var rest := data[k + 1..];
      forall i | 0 <= i < |rest| && rest[i] == '\r' ensures i + 1 < |rest| && rest[i + 1] != '\n' {
        assert data[k + 1 + i] == '\r';
      }
      SplitIsClean(rest);
    }
  }

  lemma CanonicalReadBack(f: Frame, tail: string)
    requires Canonical(f)
    ensures var s := Scan(Encode(f) + tail);
      if Fits(f) then s == Scanned(Some(f), tail, None) else s.err == Some(ShortBuffer)
  {
    var lines := SplitLines(f.data);
    var body := EncodeLines(lines) + "\n" + tail;
    SplitIsClean(f.data);
    SplitThenJoinAll(f.data);
    assert Encode(f) + tail == EventLine(f.event) + body;
    if f.event == "" {
      assert "" + body == body;
      DataReadBack(lines, tail, NO_DRAFT);
    } else {
      assert EventLine(f.event) + body == "event: " + f.event + "\n" + body;
      EventReadBack(f.event, body);
      DataReadBack(lines, tail, Draft(f.event, "", true));
    }
  }

  /** A written frame is read back as it was, whatever follows it, exactly when it is
      canonical and within the limits. */
  lemma ReadBackExactly(f: Frame, tail: string)
    ensures Scan(Encode(f) + tail) == Scanned(Some(f), tail, None) <==> Canonical(f) && Fits(f)
  {
    if Canonical(f) {
      CanonicalReadBack(f, tail);
    } else {
      ScannedIsCanonical(Encode(f) + tail, NO_DRAFT);
    }
  }

  // ----- whole streams -----

  const KEEP_ALIVE := ": keepalive\n\n"

  datatype Item = Sent(frame: Frame) | Beat

  function Written(items: seq<Item>): string {
    if items == [] then ""
    else (if items[0].Sent? then Encode(items[0].frame) else KEEP_ALIVE) + Written(items[1..])
  }

  function FramesOf(items: seq<Item>): seq<Frame> {
    if items == [] then []
    else (if items[0].Sent? then [items[0].frame] else []) + FramesOf(items[1..])
  }

  datatype Transcript = Transcript(frames: seq<Frame>, err: ReadError)

  lemma {:induction false} ScanProgresses(rest: string, d: Draft)
    ensures ScanLines(rest, d).err.None? ==> |ScanLines(rest, d).rest| < |rest|
    decreases |rest|
  {
    match ReadLine(rest)
    case NoMore =>
    case TooLong =>
    case Line(line, after) =>
      if line == "" {
        if !d.saw { ScanProgresses(after, d); }
      } else if line[0] == ':' {
        ScanProgresses(after, d);
      } else if |TakeField(d, line).data| <= MAX_FRAME_BYTES {
        ScanProgresses(after, TakeField(d, line));
      }
  }

  /** Calling `Scan` until it returns false. */
  function ScanAll(rest: string): Transcript
    decreases |rest|
  {
    var s := Scan(rest);
    var got := if s.frame.Some? then [s.frame.value] else [];
    if s.err.Some? then Transcript(got, s.err.value)
    else
      assert |s.rest| < |rest| by { ScanProgresses(rest, NO_DRAFT); }
      var more := ScanAll(s.rest);
      Transcript(got + more.frames, more.err)
  }

  lemma BeatIsSkipped(tail: string)
    ensures Scan(KEEP_ALIVE + tail) == Scan(tail)
  {
    var line := ": keepalive";
    var blank := "" + "\n" + tail;
    assert KEEP_ALIVE + tail == line + "\n" + blank by {
      assert KEEP_ALIVE == line + "\n" + "\n";
    }
    LineReadBack(line, blank);
    LineReadBack("", tail);
    assert line[0] == ':';
    assert Scan(KEEP_ALIVE + tail) == ScanLines(blank, NO_DRAFT);
  }

  /** Any number of canonical frames, with keep-alives anywhere between them, is read back
      exactly, and the stream then ends cleanly. */
  lemma {:induction false} StreamReadBack(items: seq<Item>)
    requires forall i :: 0 <= i < |items| && items[i].Sent? ==> Canonical(items[i].frame) && Fits(items[i].frame)
    ensures ScanAll(Written(items)) == Transcript(FramesOf(items), EndOfInput)
  {
    if items == [] {
    } else {
      var rest := Written(items[1..]);
      StreamReadBack(items[1..]);
      if items[0].Sent? {
        ReadBackExactly(items[0].frame, rest);
      } else {
        BeatIsSkipped(rest);
      }
    }
  }

  /** Reading a frame and writing it again loses nothing: a second reading finds the same
      frame, unless the rewritten lines have grown past the line limit. */
  lemma RewriteIsStable(rest: string, tail: string)
    ensures var s := Scan(rest);
      s.frame.Some? && Fits(s.frame.value) ==>
        Scan(Encode(s.frame.value) + tail) == Scanned(s.frame, tail, None)
  {
    ScannedIsCanonical(rest, NO_DRAFT);
    var s := Scan(rest);
    if s.frame.Some? && Fits(s.frame.value) { ReadBackExactly(s.frame.value, tail); }
  }

  /** The line limit leaves too little room for the `data: ` prefix: a one-line frame of the
      largest admitted size is refused. */
  lemma LargestFrameIsRefused(data: string, tail: string)
    requires |data| == MAX_FRAME_BYTES && CanonicalData(data) && '\n' !in data
    ensures Scan(Encode(Frame("", data)) + tail).err == Some(ShortBuffer)
  {
    Unbroken(data, '\n');
    assert SplitLines(data) == [data];
    assert !FitsLine(6, SplitLines(data)[0]);
    CanonicalReadBack(Frame("", data), tail);
  }

  // ----- how a line is read -----

  /** The line says `value` for the field `name`: the name ends at the first colon, and one space
      behind the colon is not part of the value.  Without a colon the line is all name. */
  predicate ReadsAs(line: string, name: string, value: string) {
    && ':' !in name
    && (|| (line == name && value == "")
        || line == name + ": " + value
        || (line == name + ":" + value && (value == "" || value[0] != ' ')))
  }

  lemma SplitAt(name: string, rest: string)
    requires ':' !in name
    ensures IndexOf(name + ":" + rest, ':') == |name|
    ensures (name + ":" + rest)[..|name|] == name && (name + ":" + rest)[|name| + 1..] == rest
  {
    Unbroken(name, ':');
    Associate(name, ":", rest);
    IndexPast(name, ":" + rest, ':');
    assert IndexOf(":" + rest, ':') == 0;
  }

  /** Every line reads in one way, and that is how it is split. */
  lemma LinesReadOneWay(line: string, name: string, value: string)
    ensures ReadsAs(line, name, value) <==> SplitField(line) == (name, value)
  {
    var k := IndexOf(line, ':');
    if ReadsAs(line, name, value) {
      Unbroken(name, ':');
      if line == name + ": " + value {
        Associate(name + ":", " ", value);
        assert name + ": " == name + ":" + " ";
        SplitAt(name, " " + value);
        assert (" " + value)[1..] == value;
      } else if line == name + ":" + value {
        SplitAt(name, value);
      }
    }
    if SplitField(line) == (name, value) {
      assert ':' !in name by {
        forall c | c in name ensures c != ':' { var i :| 0 <= i < |name| && name[i] == c; assert name[i] == line[i]; }
      }
      if k < |line| {
        var all := line[k + 1..];
        assert line == name + ":" + all;
        if all != "" && all[0] == ' ' {
          assert all == " " + value;
          Associate(name + ":", " ", value);
          assert name + ": " == name + ":" + " ";
        }
      }
    }
  }

  datatype Field = Field(name: string, value: string)

  /** The last event named, if any. */
  function EventOf(fields: seq<Field>, was: string): string {
    if fields == [] then was
    else
      var f := fields[|fields| - 1];
      if f.name == "event" then f.value else EventOf(fields[..|fields| - 1], was)
  }

  function DataOf(fields: seq<Field>): seq<string> {
    if fields == [] then [] else (if fields[0].name == "data" then [fields[0].value] else []) + DataOf(fields[1..])
  }

  predicate SaysSomething(fields: seq<Field>) {
    exists k :: 0 <= k < |fields| && Counts(fields[k])
  }

  function Unlines(lines: seq<string>): string {
    if lines == [] then "" else lines[0] + "\n" + Unlines(lines[1..])
  }

  /** Lines as they may stand between two blank ones. */
  predicate ProperLine(line: string) {
    line != "" && '\n' !in line && CleanEnd(line) && |line| + 1 <= MAX_LINE_BYTES
  }

  predicate Counts(f: Field) { f.name in {"event", "data", "id", "retry"} }

  /** What a field makes of a draft. */
  function Heeded(d: Draft, f: Field): Draft {
    Draft(if f.name == "event" then f.value else d.event,
          if f.name == "data" then AddData(d.data, f.value) else d.data, d.saw || Counts(f))
  }

  lemma FieldTaken(line: string, f: Field, d: Draft, rest: string)
    requires ProperLine(line) && ReadsAs(line, f.name, f.value)
    requires |Heeded(d, f).data| <= MAX_FRAME_BYTES
    ensures ScanLines(line + "\n" + rest, d) == ScanLines(rest, Heeded(d, f))
  {
    LineReadBack(line, rest);
    LinesReadOneWay(line, f.name, f.value);
    if line[0] == ':' {
      assert IndexOf(line, ':') == 0;
      assert f.name == line[..0] == "";
      assert Heeded(d, f) == d;
    } else {
      assert TakeField(d, line) == Heeded(d, f);
    }
  }

  lemma EventOfFirst(fields: seq<Field>, was: string)
    requires fields != []
    ensures EventOf(fields, was) == EventOf(fields[1..], if fields[0].name == "event" then fields[0].value else was)
  {
    if |fields| > 1 {
      var front := fields[..|fields| - 1];
      assert fields[1..][..|fields| - 2] == front[1..];
      EventOfFirst(front, was);
    } else {
      assert fields[..0] == [] && fields[1..] == [];
    }
  }

  lemma SaysFirst(fields: seq<Field>)
    requires fields != []
    ensures SaysSomething(fields) <==> Counts(fields[0]) || SaysSomething(fields[1..])
  {
    if SaysSomething(fields) {
      var k :| 0 <= k < |fields| && Counts(fields[k]);
      assert k > 0 ==> Counts(fields[1..][k - 1]);
    }
    if SaysSomething(fields[1..]) {
      var k :| 0 <= k < |fields[1..]| && Counts(fields[1..][k]);
      assert Counts(fields[k + 1]);
    }
  }

  lemma JoinedFirst(d: Draft, fields: seq<Field>)
    requires fields != []
    ensures Joined(d.data, DataOf(fields)) == Joined(Heeded(d, fields[0]).data, DataOf(fields[1..]))
    ensures |Heeded(d, fields[0]).data| <= |Joined(d.data, DataOf(fields))|
  {
    JoinedGrows(Heeded(d, fields[0]).data, DataOf(fields[1..]));
    if fields[0].name == "data" {
      assert DataOf(fields)[0] == fields[0].value && DataOf(fields)[1..] == DataOf(fields[1..]);
    } else {
      assert DataOf(fields) == DataOf(fields[1..]);
    }
  }

  lemma UnlinesFirst(lines: seq<string>, tail: string)
    requires lines != []
    ensures Unlines(lines) + "\n" + tail == lines[0] + "\n" + (Unlines(lines[1..]) + "\n" + tail)
  {
    Associate(lines[0] + "\n", Unlines(lines[1..]), "\n");
    Associate(lines[0] + "\n", Unlines(lines[1..]) + "\n", tail);
  }

  /** Lines and what they say. */
  predicate Says(lines: seq<string>, fields: seq<Field>) {
    && |lines| == |fields|
    && forall k :: 0 <= k < |lines| ==> ProperLine(lines[k]) && ReadsAs(lines[k], fields[k].name, fields[k].value)
  }

  /** What is found at the blank line. */
  function FoundAt(tail: string, d: Draft): Scanned {
    if d.saw then Scanned(Some(Frame(d.event, d.data)), tail, None) else ScanLines(tail, d)
  }

  lemma BlankFound(tail: string, d: Draft)
    ensures ScanLines("" + "\n" + tail, d) == FoundAt(tail, d)
  {
    LineReadBack("", tail);
  }

  /** Whatever lines stand ahead of a blank one: the frame has the last event named, the data values
      one below the other, and exists if any field was known.  Comments and unknown fields count
      for nothing. */
  lemma {:induction false} LinesAreRead(lines: seq<string>, fields: seq<Field>, tail: string, d: Draft)
    requires Says(lines, fields) && |Joined(d.data, DataOf(fields))| <= MAX_FRAME_BYTES
    ensures ScanLines(Unlines(lines) + "\n" + tail, d)
         == FoundAt(tail, Draft(EventOf(fields, d.event), Joined(d.data, DataOf(fields)), d.saw || SaysSomething(fields)))
    decreases |lines|
  {
    if lines == [] {
      BlankFound(tail, d);
    } else {
      UnlinesFirst(lines, tail);
      JoinedFirst(d, fields);
      FieldTaken(lines[0], fields[0], d, Unlines(lines[1..]) + "\n" + tail);
      LinesAreRead(lines[1..], fields[1..], tail, Heeded(d, fields[0]));
      EventOfFirst(fields, d.event);
      SaysFirst(fields);
    }
  }

  /** A line is read without its end, whether that is a line feed or a carriage return and one. */
  lemma LineEndsAreDropped(line: string, tail: string)
    requires '\n' !in line && CleanEnd(line) && |line| + 2 <= MAX_LINE_BYTES
    ensures ReadLine(line + "\n" + tail) == Line(line, tail)
    ensures ReadLine(line + "\r\n" + tail) == Line(line, tail)
  {
    LineReadBack(line, tail);
    var full := line + "\r";
    assert '\n' !in full by { forall c | c in full ensures c != '\n' { assert c in line || c in "\r"; } }
    assert line + "\r\n" + tail == full + "\n" + tail by { assert line + "\r\n" == full + "\n"; }
    RawLineBack(full, tail);
    TrimOne(full);
    assert full[..|line|] == line;
    TrimOne(line);
    if line != "" { assert line[|line| - 1] in line; }
    assert TrimEnd(full) == TrimEnd(line);
    if line == "" { assert TrimEnd("") == ""; } else { assert TrimEnd(line) == line; }
  }
}
