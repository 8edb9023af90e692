/** The parser for the engine's multiplexed log stream, as history is read to seed a log view. */
module Frames {
  import opened Wire
  import opened Strings

  type Byte = b: int | 0 <= b < 256
  type Bytes = seq<Byte>

  const MAX_FRAME := 0x10_0000
  const MAX_ROWS := 10000

  /** One frame: the stream it belongs to, three bytes that are not used, and the payload. */
  datatype Frame = Frame(stream: Byte, padding: (Byte, Byte, Byte), payload: Bytes)

  /** A row shows the message, and the text before its first space from which the time is read. */
  datatype Row = Row(stream: string, time: Option<Bytes>, msg: Bytes)

  /* ----- The stream format ----- */

  function LengthBytes(n: nat): Bytes {
    [n / 0x100_0000 % 0x100, n / 0x1_0000 % 0x100, n / 0x100 % 0x100, n % 0x100]
  }

  function Encode(f: Frame): Bytes {
    Header(f.stream, f.padding, |f.payload|) + f.payload
  }

  function Header(stream: Byte, padding: (Byte, Byte, Byte), length: nat): Bytes {
    [stream, padding.0, padding.1, padding.2] + LengthBytes(length)
  }

  function EncodeAll(frames: seq<Frame>): Bytes {
    if frames == [] then [] else Encode(frames[0]) + EncodeAll(frames[1..])
  }

  /** The length that a header announces, most significant byte first. */
  function Size(header: Bytes): (n: int)
    requires |header| >= 8
    ensures 0 <= n < 0x1_0000_0000
  {
    Number(header[4], header[5], header[6], header[7])
  }

  function Number(b0: int, b1: int, b2: int, b3: int): int {
    b0 * 0x100_0000 + b1 * 0x1_0000 + b2 * 0x100 + b3
  }

  /** The stream ends within a header or within the payload that a header announces. */
  predicate CutShort(bytes: Bytes) {
    |bytes| < 8 || |bytes| < 8 + Size(bytes)
  }

  function FirstFrame(bytes: Bytes): Frame
    requires !CutShort(bytes)
  {
    Frame(bytes[0], (bytes[1], bytes[2], bytes[3]), bytes[8..8 + Size(bytes)])
  }

  /** The frames of a stream, and what is left of it. */
  function Split(bytes: Bytes): (r: (seq<Frame>, Bytes))
    ensures CutShort(r.1)
    decreases |bytes|
  {
    if CutShort(bytes) then ([], bytes)
    else
      var end := 8 + Size(bytes);
      var (frames, tail) := Split(bytes[end..]);
      ([FirstFrame(bytes)] + frames, tail)
  }

  lemma LengthRoundTrip(n: nat)
    requires n < 0x1_0000_0000
    ensures var b := LengthBytes(n); Number(b[0], b[1], b[2], b[3]) == n
  {
    assert n / 0x100 == n / 0x1_0000 * 0x100 + n / 0x100 % 0x100;
    assert n / 0x1_0000 == n / 0x100_0000 * 0x100 + n / 0x1_0000 % 0x100;
  }

  lemma NumberRoundTrip(a: Byte, b: Byte, c: Byte, d: Byte)
    ensures LengthBytes(Number(a, b, c, d)) == [a, b, c, d]
  {
    var n, upper, top := Number(a, b, c, d), Shifted(Shifted(a, b), c), Shifted(a, b);
    assert n == Shifted(upper, d);
    Unshifted(upper, d);
    Unshifted(top, c);
    Unshifted(a, b);
    assert n / 0x1_0000 == n / 0x100 / 0x100 == top;
    assert n / 0x100_0000 == n / 0x1_0000 / 0x100 == a;
  }

  function Shifted(high: int, low: int): int {
    high * 0x100 + low
  }

  lemma Unshifted(high: int, low: Byte)
    ensures Shifted(high, low) / 0x100 == high && Shifted(high, low) % 0x100 == low
  {
  }

  /** The length of a payload has to fit into the header. */
  predicate Framable(frames: seq<Frame>) {
    forall i :: 0 <= i < |frames| ==> |frames[i].payload| < 0x1_0000_0000
  }

  /** The header of an encoded frame announces the length of its payload. */
  lemma EncodedFirst(f: Frame, rest: Bytes)
    requires |f.payload| < 0x1_0000_0000
    ensures var bytes := Encode(f) + rest;
      !CutShort(bytes) && FirstFrame(bytes) == f && bytes[8 + Size(bytes)..] == rest
  {
    LengthRoundTrip(|f.payload|);
    var header := Header(f.stream, f.padding, |f.payload|);
    assert Encode(f) + rest == header + (f.payload + rest);
    assert header[4..8] == LengthBytes(|f.payload|);
  }

  lemma SplitEncoded(f: Frame, rest: Bytes, frames: seq<Frame>, tail: Bytes)
    requires |f.payload| < 0x1_0000_0000 && Split(rest) == (frames, tail)
    ensures Split(Encode(f) + rest) == ([f] + frames, tail)
  {
    EncodedFirst(f, rest);
  }

  lemma EncodeAllStep(first: Frame, frames: seq<Frame>, tail: Bytes)
    ensures EncodeAll([first] + frames) + tail == Encode(first) + (EncodeAll(frames) + tail)
  {
  }

  /** Any frames that are encoded, whatever cut-off tail follows, are found again, and so is the tail. */
  lemma {:induction false} SplitInvertsEncoding(frames: seq<Frame>, tail: Bytes)
    requires Framable(frames) && CutShort(tail)
    ensures Split(EncodeAll(frames) + tail) == (frames, tail)
  {
    if frames == [] {
      assert EncodeAll(frames) + tail == tail;
    } else {
      var first, rest := frames[0], frames[1..];
      SplitInvertsEncoding(rest, tail);
      SplitEncoded(first, EncodeAll(rest) + tail, rest, tail);
      EncodeAllStep(first, rest, tail);
      assert [first] + rest == frames;
    }
  }

  lemma FrameOfItsBytes(bytes: Bytes)
    requires !CutShort(bytes)
    ensures bytes == Encode(FirstFrame(bytes)) + bytes[8 + Size(bytes)..]
  {
    NumberRoundTrip(bytes[4], bytes[5], bytes[6], bytes[7]);
  }

  /** Every stream of bytes is the encoding of its frames followed by a tail that is cut short. */
  lemma {:induction false} EncodingInvertsSplit(bytes: Bytes)
    ensures var (frames, tail) := Split(bytes); Framable(frames) && bytes == EncodeAll(frames) + tail
    decreases |bytes|
  {
    if !CutShort(bytes) {
      var rest := bytes[8 + Size(bytes)..];
      FrameOfItsBytes(bytes);
      EncodingInvertsSplit(rest);
      var (frames, tail) := Split(rest);
      EncodeAllStep(FirstFrame(bytes), frames, tail);
    }
  }

  /* ----- From frames to rows ----- */

  function TrimmedRight(line: Bytes): (r: Bytes)
    ensures r <= line
    ensures r == [] || r[|r| - 1] !in {10, 13}
    ensures forall i :: |r| <= i < |line| ==> line[i] in {10, 13}
  {
    if line != [] && line[|line| - 1] in {10, 13} then TrimmedRight(line[..|line| - 1]) else line
  }

  /** The number of bytes of the white-space character in UTF-8 that the line begins with, or 0. */
  function SpaceWidth(line: Bytes): (n: nat)
    ensures n <= |line|
  {
    if |line| >= 1 && (9 <= line[0] <= 13 || line[0] == 0x20) then 1
    else if |line| >= 2 && line[0] == 0xC2 && line[1] in {0x85, 0xA0} then 2
    else if |line| >= 3 && (line[0], line[1], line[2]) in {(0xE1, 0x9A, 0x80), (0xE2, 0x81, 0x9F), (0xE3, 0x80, 0x80)} then 3
    else if |line| >= 3 && line[0] == 0xE2 && line[1] == 0x80 && (0x80 <= line[2] <= 0x8A || line[2] in {0xA8, 0xA9, 0xAF}) then 3
    else 0
  }

  predicate Blank(line: Bytes)
    decreases |line|
  {
    line == [] || (SpaceWidth(line) > 0 && Blank(line[SpaceWidth(line)..]))
  }

  function Label(stream: Byte): string {
    if stream == 1 then "stdout" else if stream == 2 then "stderr" else ""
  }

  /** The index of the first space, or the length of the line. */
  function FirstSpace(line: Bytes): (i: nat)
    ensures i <= |line| && (i < |line| ==> line[i] == 0x20)
    ensures forall j :: 0 <= j < i ==> line[j] != 0x20
  {
    if line == [] || line[0] == 0x20 then 0 else 1 + FirstSpace(line[1..])
  }

  function BuildRow(line: Bytes, stream: string): Row {
    var i := FirstSpace(line);
    if 0 < i < |line| then Row(stream, Some(line[..i]), line[i + 1..]) else Row(stream, None, line)
  }

  /** What a row keeps of its line. */
  function RowText(row: Row): Bytes {
    if row.time.Some? then row.time.value + [0x20] + row.msg else row.msg
  }

  lemma RowKeepsLine(line: Bytes, stream: string)
    ensures RowText(BuildRow(line, stream)) == line && BuildRow(line, stream).stream == stream
    ensures BuildRow(line, stream).time.Some? <==> 0x20 in line && line[0] != 0x20
    ensures BuildRow(line, stream).time.Some? ==> 0x20 !in BuildRow(line, stream).time.value
  {
  }

  /* ----- What white space is, in UTF-8 ----- */

  /** A character in UTF-8, section 3 of RFC 3629. */
  function Utf8(c: char): Bytes {
    var u := c as int;
    if u < 0x80 then [u]
    else if u < 0x800 then [0xC0 + u / 0x40, 0x80 + u % 0x40]
    else if u < 0x1_0000 then [0xE0 + u / 0x1000, 0x80 + u / 0x40 % 0x40, 0x80 + u % 0x40]
    else [0xF0 + u / 0x4_0000, 0x80 + u / 0x1000 % 0x40, 0x80 + u / 0x40 % 0x40, 0x80 + u % 0x40]
  }

  function Utf8All(s: string): Bytes {
    if s == "" then [] else Utf8(s[0]) + Utf8All(s[1..])
  }

  /** A line begins with white space exactly if its first character is white space. */
  lemma SpaceWidthIff(c: char, rest: Bytes)
    ensures SpaceWidth(Utf8(c) + rest) == if IsSpace(c) then |Utf8(c)| else 0
  {
    var u, line := c as int, Utf8(c) + rest;
    if 0x800 <= u < 0x1_0000 {
      assert line[0] == 0xE0 + u / 0x1000 && line[1] == 0x80 + u / 0x40 % 0x40 && line[2] == 0x80 + u % 0x40;
      assert u == u / 0x1000 * 0x1000 + u / 0x40 % 0x40 * 0x40 + u % 0x40 by {
        assert u / 0x40 == u / 0x1000 * 0x40 + u / 0x40 % 0x40;
      }
    }
  }

  /** A line of text is blank exactly if trimming it leaves nothing. */
  lemma {:induction false} BlankIff(s: string)
    ensures Blank(Utf8All(s)) <==> TrimSpace(s) == ""
  {
    TrimmedEmptyIff(s);
    if s != "" {
      BlankIff(s[1..]);
      TrimmedEmptyIff(s[1..]);
      SpaceWidthIff(s[0], Utf8All(s[1..]));
      assert (Utf8(s[0]) + Utf8All(s[1..]))[|Utf8(s[0])|..] == Utf8All(s[1..]);
      assert AllSpace(s) <==> IsSpace(s[0]) && AllSpace(s[1..]);
    }
  }

  lemma {:induction false} BlankBeforeLineEnd(line: Bytes, end: Byte)
    requires end in {10, 13}
    ensures Blank(line + [end]) <==> Blank(line)
    decreases |line|
  {
    if line == [] {
      assert SpaceWidth([end]) == 1 && [end][1..] == [];
    } else {
      assert SpaceWidth(line + [end]) == SpaceWidth(line);
      if SpaceWidth(line) > 0 {
        BlankBeforeLineEnd(line[SpaceWidth(line)..], end);
        assert (line + [end])[SpaceWidth(line)..] == line[SpaceWidth(line)..] + [end];
      }
    }
  }

  lemma {:induction false} BlankWithoutLineEnds(line: Bytes)
    ensures Blank(TrimmedRight(line)) <==> Blank(line)
  {
    if line != [] && line[|line| - 1] in {10, 13} {
      BlankWithoutLineEnds(line[..|line| - 1]);
      BlankBeforeLineEnd(line[..|line| - 1], line[|line| - 1]);
      assert line[..|line| - 1] + [line[|line| - 1]] == line;
    }
  }

  predicate Shown(f: Frame) {
    |f.payload| <= MAX_FRAME && !Blank(TrimmedRight(f.payload))
  }

  /** A frame of text is shown exactly if it has at most 1 MiB and trimming it leaves something. */
  lemma ShownIff(f: Frame, text: string)
    requires f.payload == Utf8All(text)
    ensures Shown(f) <==> |f.payload| <= 1024 * 1024 && TrimSpace(text) != ""
  {
    BlankIff(text);
    BlankWithoutLineEnds(f.payload);
  }

  /** The row of a frame, if it is shown. */
  function RowOf(f: Frame): seq<Row> {
    if Shown(f) then [BuildRow(TrimmedRight(f.payload), Label(f.stream))] else []
  }

  function RowsOf(frames: seq<Frame>): seq<Row> {
    if frames == [] then [] else RowOf(frames[0]) + RowsOf(frames[1..])
  }

  /* ----- The reader ----- */

  function Limited(rows: seq<Row>): seq<Row> {
    if |rows| <= MAX_ROWS then rows else rows[..MAX_ROWS]
  }

  /** A stream of bytes that ends, or breaks off with an error. */
  class Reader {
    const data: Bytes
    const breaks: bool
    var pos: nat

    constructor (bytes: Bytes, breaksOff: bool)
      ensures data == bytes && breaks == breaksOff && pos == 0
    {
      data, breaks, pos := bytes, breaksOff, 0;
    }

    ghost predicate Valid()
      reads this
    {
      pos <= |data|
    }

    function Rest(): Bytes
      reads this
      requires Valid()
    {
      data[pos..]
    }

    /** Reads n bytes or, if there are fewer, the rest. */
    method ReadFull(n: nat) returns (bytes: Bytes, ok: bool)
      requires Valid()
      modifies this
      ensures Valid()
      ensures ok == (n <= |old(Rest())|)
      ensures ok ==> bytes == old(Rest())[..n] && Rest() == old(Rest())[n..]
      ensures !ok ==> bytes == old(Rest()) && Rest() == []
    {
      if pos + n <= |data| {
        bytes, ok := data[pos..pos + n], true;
        pos := pos + n;
      } else {
        bytes, ok := data[pos..], false;
        pos := |data|;
      }
    }
  }

  /** The rows of a stream of bytes, if there were no limit. */
  function SeedRows(bytes: Bytes): seq<Row> {
    RowsOf(Split(bytes).0)
  }

  /**
   Returns the rows of the first frames that are shown, up to the limit; reports an error exactly
   if the stream breaks off before the limit is reached.
   */
  method ReadFramedSeedRows(reader: Reader) returns (rows: seq<Row>, failed: bool)
    requires reader.Valid()
    modifies reader
    ensures reader.Valid()
    ensures rows == Limited(SeedRows(old(reader.Rest())))
    ensures failed == (reader.breaks && |SeedRows(old(reader.Rest()))| < MAX_ROWS)
  {
    rows, failed := [], false;
    ghost var all := SeedRows(reader.Rest());
    while |rows| < MAX_ROWS
      invariant reader.Valid() && |rows| <= MAX_ROWS
      invariant rows + SeedRows(reader.Rest()) == all
      decreases |reader.Rest()|
    {
      var row, complete := ReadFrame(reader);
      if !complete {
        failed := reader.breaks;
        LimitedRows(rows, [], all);
        return;
      }
      Regroup(rows, row, SeedRows(reader.Rest()));
      rows := rows + row;
    }
    LimitedRows(rows, SeedRows(reader.Rest()), all);
  }

  lemma Regroup(a: seq<Row>, b: seq<Row>, c: seq<Row>)
    ensures a + (b + c) == (a + b) + c
  {
  }

  lemma LimitedRows(rows: seq<Row>, more: seq<Row>, all: seq<Row>)
    requires rows + more == all && |rows| <= MAX_ROWS && (more == [] || |rows| == MAX_ROWS)
    ensures rows == Limited(all) && (|rows| < MAX_ROWS <==> |all| < MAX_ROWS)
  {
  }

  /** One turn of the loop: the row of the next frame, if there is a frame and it is shown. */
  method ReadFrame(reader: Reader) returns (row: seq<Row>, complete: bool)
    requires reader.Valid()
    modifies reader
    ensures reader.Valid() && |row| <= 1
    ensures complete == !CutShort(old(reader.Rest()))
    ensures SeedRows(old(reader.Rest())) == if complete then row + SeedRows(reader.Rest()) else []
    ensures complete ==> |reader.Rest()| < |old(reader.Rest())|
  {
    row := [];
    var header, gotHeader := reader.ReadFull(8);
    if !gotHeader {
      return [], false;
    }
    var size := Size(header);
    NextFrame(old(reader.Rest()), header, reader.Rest());
    if size == 0 {
      return [], true;
    }
    var payload, gotPayload := reader.ReadFull(size);
    if !gotPayload || size > MAX_FRAME {
      return [], gotPayload;
    }
    var line := TrimmedRight(payload);
    if Blank(line) {
      return [], true;
    }
    return [BuildRow(line, Label(header[0]))], true;
  }

  /** Once its header is read, the rows of a stream are those of its first frame and those of the rest. */
  lemma NextFrame(bytes: Bytes, header: Bytes, rest: Bytes)
    requires |header| == 8 && bytes == header + rest
    ensures CutShort(bytes) <==> |rest| < Size(header)
    ensures SeedRows(bytes) ==
      if |rest| < Size(header) then [] else RowOf(Frame(header[0], (header[1], header[2], header[3]), rest[..Size(header)])) + SeedRows(rest[Size(header)..])
  {
    var size := Size(header);
    assert Size(bytes) == size;
    if |rest| >= size {
      assert bytes[8..8 + size] == rest[..size] && bytes[8 + size..] == rest[size..];
    }
  }

  /* ----- What the parser promises ----- */

  function Visible(frames: seq<Frame>): seq<Frame> {
    if frames == [] then [] else (if Shown(frames[0]) then [frames[0]] else []) + Visible(frames[1..])
  }

  /** The row tells the frame's stream, and its text up to the line end. */
  ghost predicate Shows(row: Row, f: Frame) {
    && (row.stream == "stdout" <==> f.stream == 1) && (row.stream == "stderr" <==> f.stream == 2)
    && (row.stream == "" <==> f.stream !in {1, 2})
    && RowText(row) == TrimmedRight(f.payload) && (row.time.Some? ==> 0x20 !in row.time.value)
  }

  /** There is one row, in order, for every frame that is neither blank nor too long. */
  lemma {:induction false} RowsShowVisibleFrames(frames: seq<Frame>)
    ensures var rows, visible := RowsOf(frames), Visible(frames);
      |rows| == |visible| && forall i :: 0 <= i < |rows| ==> Shows(rows[i], visible[i])
  {
    if frames != [] {
      RowsShowVisibleFrames(frames[1..]);
      RowKeepsLine(TrimmedRight(frames[0].payload), Label(frames[0].stream));
    }
  }

  /** Leaving out a frame that is not shown, anywhere in the stream, changes nothing. */
  lemma {:induction false} HiddenFramesAreSkipped(before: seq<Frame>, hidden: Frame, after: seq<Frame>)
    requires !Shown(hidden)
    ensures RowsOf(before + [hidden] + after) == RowsOf(before + after)
  {
    if before == [] {
      assert before + [hidden] + after == [hidden] + after;
      assert ([hidden] + after)[1..] == after && before + after == after;
    } else {
      HiddenFramesAreSkipped(before[1..], hidden, after);
      assert (before + [hidden] + after)[1..] == before[1..] + [hidden] + after;
      assert (before + after)[1..] == before[1..] + after;
    }
  }

  /** Reading what was framed: any frames, followed by any tail that is cut short. */
  method ReadEncoded(frames: seq<Frame>, tail: Bytes, breaks: bool) returns (rows: seq<Row>, failed: bool)
    requires Framable(frames) && CutShort(tail)
    ensures rows == Limited(RowsOf(frames))
    ensures |rows| == if |Visible(frames)| < 10000 then |Visible(frames)| else 10000
    ensures forall i :: 0 <= i < |rows| ==> Shows(rows[i], Visible(frames)[i])
    ensures failed == (breaks && |Visible(frames)| < 10000)
  {
    RowsShowVisibleFrames(frames);
    var reader := new Reader(EncodeAll(frames) + tail, breaks);
    SplitInvertsEncoding(frames, tail);
    assert reader.Rest() == EncodeAll(frames) + tail;
    rows, failed := ReadFramedSeedRows(reader);
  }
}
