/** JPEG metadata removal (image.rs): a walk over the marker segments before the scan and over
    what follows it, on any bytes. */
module Jpeg {
  import opened Contracts
  import opened Bytes

  const FF: byte := 0xff
  const SOI: byte := 0xd8
  const EOI: byte := 0xd9
  const SOS: byte := 0xda

  datatype JpegError = TruncatedSegment | TruncatedFrame | NoFrame

  // ------------------------------------------------------------------ markers

  /** How many fill bytes precede the marker code: the 0xFF bytes right behind the first byte. */
  function Fills(b: seq<byte>): (n: nat)
    ensures n == 0 || n + 1 <= |b|
  {
    if |b| < 2 || b[1] != FF then 0 else 1 + Fills(b[1..])
  }

  function MarkerOf(b: seq<byte>): Option<byte> {
    if Fills(b) + 1 < |b| then Some(b[Fills(b) + 1]) else None
  }

  /** Markers without a length: TEM and the restart markers. */
  predicate Alone(marker: byte) {
    marker == 0x01 || 0xd0 <= marker <= 0xd7
  }

  /** The size of a segment with its marker, by its length field. */
  function Framed(b: seq<byte>): (size: Option<nat>)
    ensures size.Some? ==> Fills(b) + 4 <= size.value <= |b|
  {
    var n := ReadBe16(b, Fills(b) + 2);
    if n.None? || n.value < 2 || Fills(b) + 2 + n.value > |b| then None else Some(Fills(b) + 2 + n.value)
  }

  function SizeOf(b: seq<byte>, marker: byte): (size: Option<nat>)
    requires MarkerOf(b) == Some(marker)
    ensures size.Some? ==> Fills(b) + 2 <= size.value <= |b|
  {
    if Alone(marker) then Some(Fills(b) + 2) else Framed(b)
  }

  /** `keeps_jpeg_segment`: comments go, and of the application segments only 0, 2 and 14 stay. */
  predicate Keeps(marker: byte) {
    !(marker == 0xfe || (0xe1 <= marker <= 0xef && marker != 0xe2 && marker != 0xee))
  }

  /** The markers whose segment states the dimensions; three of their range mean something else. */
  predicate IsFrame(marker: byte) {
    0xc0 <= marker <= 0xcf && marker != 0xc4 && marker != 0xc8 && marker != 0xcc
  }

  // ------------------------------------------------------------------ what the walk reads

  /** A segment as it stands, fill bytes included. */
  datatype Piece = Piece(marker: byte, bytes: seq<byte>)

  /** The segments before the scan, and what begins with its marker. */
  datatype Head = Head(pieces: seq<Piece>, scan: seq<byte>)

  function HeadOf(b: seq<byte>): Option<Head>
    decreases |b|
  {
    if b == [] || b[0] != FF || MarkerOf(b).None? then None
    else
      var marker := MarkerOf(b).value;
      if marker == SOS then Some(Head([], b))
      else
        var size := SizeOf(b, marker);
        if size.None? then None
        else
          var rest := HeadOf(b[size.value..]);
          if rest.None? then None
          else Some(Head([Piece(marker, b[..size.value])] + rest.value.pieces, rest.value.scan))
  }

  function Kept(pieces: seq<Piece>): seq<Piece> {
    if pieces == [] then []
    else if Keeps(pieces[0].marker) then [pieces[0]] + Kept(pieces[1..])
    else Kept(pieces[1..])
  }

  function Joined(pieces: seq<Piece>): seq<byte> {
    if pieces == [] then [] else pieces[0].bytes + Joined(pieces[1..])
  }

  /** The length of entropy-coded data: restart markers, stuffed zeros and fill bytes belong to it,
      any other marker ends it; `None` when none does. */
  function DataLength(b: seq<byte>): (n: Option<nat>)
    ensures n.Some? ==> n.value < |b|
    decreases |b|
  {
    if b == [] then None
    else if b[0] != FF then More(1, DataLength(b[1..]))
    else if |b| == 1 then Some(0)
    else if b[1] == 0 || 0xd0 <= b[1] <= 0xd7 then More(2, DataLength(b[2..]))
    else if b[1] == FF then More(1, DataLength(b[1..]))
    else Some(0)
  }

  function More(n: nat, m: Option<nat>): Option<nat> {
    if m.Some? then Some(n + m.value) else None
  }

  function Behind(lead: seq<byte>, rest: Option<seq<byte>>): Option<seq<byte>> {
    if rest.Some? then Some(lead + rest.value) else None
  }

  /** What is kept from the first scan on. */
  function FromScan(b: seq<byte>): Option<seq<byte>>
    decreases |b|
  {
    if MarkerOf(b).None? then Some([])
    else
      var marker, fills := MarkerOf(b).value, Fills(b);
      if marker == EOI then Some([FF, EOI])
      else if Alone(marker) then Behind([FF, marker], FromScan(b[fills + 2..]))
      else if Framed(b).None? then None
      else
        var size := Framed(b).value;
        var body := if marker == SOS || Keeps(marker) then [FF, marker] + b[fills + 2..size] else [];
        var rest := b[size..];
        if marker != SOS then Behind(body, FromScan(rest))
        else if DataLength(rest).None? then Some(body + rest)
        else var n := DataLength(rest).value; Behind(body + rest[..n], FromScan(rest[n..]))
  }

  function Stripped(bytes: seq<byte>): Option<seq<byte>> {
    if |bytes| < 2 || HeadOf(bytes[2..]).None? then None
    else
      var head := HeadOf(bytes[2..]).value;
      Behind(bytes[..2] + Joined(Kept(head.pieces)), FromScan(head.scan))
  }

  /** Height and width follow the marker code, the length and the precision. */
  function FrameSize(piece: seq<byte>): Option<(nat, nat)> {
    var at := Fills(piece) + 1;
    var height, width := ReadBe16(piece, at + 4), ReadBe16(piece, at + 6);
    if height.Some? && width.Some? then Some((width.value, height.value)) else None
  }

  function FirstFrame(pieces: seq<Piece>): Option<Piece> {
    if pieces == [] then None
    else if IsFrame(pieces[0].marker) then Some(pieces[0])
    else FirstFrame(pieces[1..])
  }

  function Dimensions(bytes: seq<byte>): Option<(nat, nat)> {
    if |bytes| < 2 || HeadOf(bytes[2..]).None? then None
    else
      var frame := FirstFrame(HeadOf(bytes[2..]).value.pieces);
      if frame.None? then None else FrameSize(frame.value.bytes)
  }

  // ------------------------------------------------------------------ the loops

  /** The last fill byte before the marker code at or behind `at`. */
  method SkipFills(bytes: seq<byte>, at: nat) returns (last: nat)
    requires at <= |bytes|
    ensures last == at + Fills(bytes[at..])
    ensures last + 1 < |bytes| <==> MarkerOf(bytes[at..]).Some?
    ensures last + 1 < |bytes| ==> MarkerOf(bytes[at..]) == Some(bytes[last + 1])
  {
    last := at;
    while last + 1 < |bytes| && bytes[last + 1] == FF
      invariant at <= last <= |bytes|
      invariant Fills(bytes[at..]) == last - at + Fills(bytes[last..])
    {
      assert bytes[last..][1..] == bytes[last + 1..];
      last := last + 1;
    }
  }

  /** A segment by position: its marker, where it starts and where it ends. */
  type Segment = (byte, nat, nat)

  ghost predicate InBytes(segments: seq<Segment>, bytes: seq<byte>) {
    forall i :: 0 <= i < |segments| ==> segments[i].1 <= segments[i].2 <= |bytes|
  }

  function PiecesAt(segments: seq<Segment>, bytes: seq<byte>): (pieces: seq<Piece>)
    requires InBytes(segments, bytes)
    ensures |pieces| == |segments|
    ensures forall i :: 0 <= i < |segments| ==> pieces[i] == Piece(segments[i].0, bytes[segments[i].1..segments[i].2])
  {
    seq(|segments|, i requires 0 <= i < |segments| => Piece(segments[i].0, bytes[segments[i].1..segments[i].2]))
  }

  /** `jpeg_segments`. */
  method JpegSegments(bytes: seq<byte>) returns (r: Result<(seq<Segment>, nat), JpegError>)
    ensures r.Ok? <==> |bytes| >= 2 && HeadOf(bytes[2..]).Some?
    ensures r.Ok? ==> r.value.1 <= |bytes| && InBytes(r.value.0, bytes)
                      && HeadOf(bytes[2..]) == Some(Head(PiecesAt(r.value.0, bytes), bytes[r.value.1..]))
  {
    if |bytes| <= 2 {
      return Err(TruncatedSegment);
    }
    var segments: seq<Segment> := [];
    var at: nat := 2;
    hide Fills, MarkerOf, Framed, HeadOf, PiecesAt, Prefixed;
    PrefixedEnds(segments, bytes, HeadOf(bytes[2..]));
    while true
      invariant 2 <= at <= |bytes| && InBytes(segments, bytes)
      invariant HeadOf(bytes[2..]) == Prefixed(PiecesAt(segments, bytes), HeadOf(bytes[at..]))
      decreases |bytes| - at
    {
      PrefixedEnds(segments, bytes, HeadOf(bytes[at..]));
      var next := SegmentAt(bytes, at);
      match next {
        case Broken => return Err(TruncatedSegment);
        case AtScan => return Ok((segments, at));
        case Next(marker, end) =>
          PrefixedStep(segments, bytes, (marker, at, end), HeadOf(bytes[end..]));
          segments := segments + [(marker, at, end)];
          at := end;
      }
    }
  }

  datatype Step = Broken | AtScan | Next(marker: byte, end: nat)

  /** One round of `jpeg_segments`. */
  method SegmentAt(bytes: seq<byte>, at: nat) returns (step: Step)
    requires at <= |bytes|
    ensures step.Broken? ==> HeadOf(bytes[at..]) == None
    ensures step.AtScan? ==> HeadOf(bytes[at..]) == Some(Head([], bytes[at..]))
    ensures step.Next? ==> at < step.end <= |bytes|
                           && HeadOf(bytes[at..]) == Prefixed([Piece(step.marker, bytes[at..step.end])],
                                                              HeadOf(bytes[step.end..]))
  {
    hide Fills, MarkerOf, Framed, HeadOf, Prefixed;
    HeadUnfolds(bytes, at);
    if at >= |bytes| || bytes[at] != FF {
      return Broken;
    }
    var last := SkipFills(bytes, at);
    if last + 1 >= |bytes| {
      return Broken;
    }
    var marker := bytes[last + 1];
    if marker == SOS {
      return AtScan;
    }
    if Alone(marker) {
      return Next(marker, last + 2);
    }
    var len := ReadBe16(bytes, last + 2);
    FramedAt(bytes, at);
    if len.None? || len.value < 2 || last + 2 + len.value > |bytes| {
      return Broken;
    }
    return Next(marker, last + 2 + len.value);
  }

  function Prefixed(pieces: seq<Piece>, head: Option<Head>): Option<Head> {
    if head.Some? then Some(Head(pieces + head.value.pieces, head.value.scan)) else None
  }

  lemma PrefixedEnds(segments: seq<Segment>, bytes: seq<byte>, head: Option<Head>)
    requires InBytes(segments, bytes)
    ensures segments == [] ==> head == Prefixed(PiecesAt(segments, bytes), head)
    ensures head.Some? && head.value.pieces == [] ==>
              Prefixed(PiecesAt(segments, bytes), head) == Some(Head(PiecesAt(segments, bytes), head.value.scan))
    ensures head.None? ==> Prefixed(PiecesAt(segments, bytes), head) == None
  {
    var pieces := PiecesAt(segments, bytes);
    assert pieces + [] == pieces;
    if segments == [] && head.Some? {
      assert pieces + head.value.pieces == head.value.pieces;
    }
  }

  lemma FramedAt(bytes: seq<byte>, at: nat)
    requires at <= |bytes|
    ensures var last := at + Fills(bytes[at..]);
            var len := ReadBe16(bytes, last + 2);
            if len.None? || len.value < 2 || last + 2 + len.value > |bytes| then Framed(bytes[at..]).None?
            else Framed(bytes[at..]) == Some(last + 2 + len.value - at)
  {
    hide Fills;
  }

  /** What the reader sees at one position. */
  lemma HeadUnfolds(bytes: seq<byte>, at: nat)
    requires at <= |bytes|
    ensures var b := bytes[at..];
            var head := HeadOf(b);
            if at >= |bytes| || bytes[at] != FF || MarkerOf(b).None? then head.None?
            else
              var marker := MarkerOf(b).value;
              if marker == SOS then head == Some(Head([], b))
              else
                var size := SizeOf(b, marker);
                if size.None? then head.None?
                else
                  head == Prefixed([Piece(marker, bytes[at..at + size.value])], HeadOf(bytes[at + size.value..]))
  {
    hide Fills, MarkerOf, Framed;
    var b := bytes[at..];
    if b != [] && b[0] == FF && MarkerOf(b).Some? {
      var marker := MarkerOf(b).value;
      if marker != SOS && SizeOf(b, marker).Some? {
        var size := SizeOf(b, marker).value;
        assert b[size..] == bytes[at + size..] && b[..size] == bytes[at..at + size];
      }
    }
  }

  lemma PrefixedStep(segments: seq<Segment>, bytes: seq<byte>, next: Segment, head: Option<Head>)
    requires InBytes(segments, bytes) && next.1 <= next.2 <= |bytes|
    ensures InBytes(segments + [next], bytes)
    ensures Prefixed(PiecesAt(segments, bytes), Prefixed([Piece(next.0, bytes[next.1..next.2])], head))
            == Prefixed(PiecesAt(segments + [next], bytes), head)
  {
    var piece := Piece(next.0, bytes[next.1..next.2]);
    assert PiecesAt(segments + [next], bytes) == PiecesAt(segments, bytes) + [piece];
    if head.Some? {
      assert (PiecesAt(segments, bytes) + [piece]) + head.value.pieces
               == PiecesAt(segments, bytes) + ([piece] + head.value.pieces);
    }
  }

  /** `jpeg_dimensions`: the first frame header decides. */
  method JpegDimensions(bytes: seq<byte>) returns (r: Result<(nat, nat), JpegError>)
    ensures r.Ok? <==> Dimensions(bytes).Some?
    ensures r.Ok? ==> Dimensions(bytes) == Some(r.value)
  {
    hide HeadOf, Fills;
    var found := JpegSegments(bytes);
    if found.Err? {
      return Err(found.error);
    }
    var segments := found.value.0;
    ghost var pieces := PiecesAt(segments, bytes);
    assert pieces[0..] == pieces;
    var i := 0;
    while i < |segments|
      invariant 0 <= i <= |segments|
      invariant FirstFrame(pieces) == FirstFrame(pieces[i..])
    {
      var (marker, start, end) := segments[i];
      assert pieces[i..][0] == pieces[i] && pieces[i..][1..] == pieces[i + 1..];
      if IsFrame(marker) {
        var segment := bytes[start..end];
        var at := SkipFills(segment, 0);
        assert segment[0..] == segment;
        var height, width := ReadBe16(segment, at + 5), ReadBe16(segment, at + 7);
        if height.Some? && width.Some? {
          return Ok((width.value, height.value));
        }
        return Err(TruncatedFrame);
      }
      i := i + 1;
    }
    return Err(NoFrame);
  }

  /** The end of the entropy-coded data that starts at `data`. */
  method DataEnd(bytes: seq<byte>, data: nat) returns (end: Option<nat>)
    requires data <= |bytes|
    ensures end.Some? <==> DataLength(bytes[data..]).Some?
    ensures end.Some? ==> DataLength(bytes[data..]) == Some(end.value - data) && data <= end.value < |bytes|
  {
    hide DataLength;
    var at := data;
    while true
      invariant data <= at <= |bytes|
      invariant DataLength(bytes[data..]) == More(at - data, DataLength(bytes[at..]))
      decreases |bytes| - at
    {
      var ff := NextFF(bytes, at);
      DataUnfolds(bytes, ff);
      if ff == |bytes| {
        return None;
      }
      if ff + 1 < |bytes| && (bytes[ff + 1] == 0 || 0xd0 <= bytes[ff + 1] <= 0xd7) {
        at := ff + 2;
      } else if ff + 1 < |bytes| && bytes[ff + 1] == FF {
        at := ff + 1;
      } else {
        return Some(ff);
      }
      if at >= |bytes| {
        DataUnfolds(bytes, at);
        return None;
      }
    }
  }

  lemma DataUnfolds(bytes: seq<byte>, at: nat)
    requires at <= |bytes|
    ensures var n := DataLength(bytes[at..]);
            if at == |bytes| then n == None
            else if bytes[at] != FF then n == More(1, DataLength(bytes[at + 1..]))
            else if at + 1 == |bytes| then n == Some(0)
            else if bytes[at + 1] == 0 || 0xd0 <= bytes[at + 1] <= 0xd7 then n == More(2, DataLength(bytes[at + 2..]))
            else if bytes[at + 1] == FF then n == More(1, DataLength(bytes[at + 1..]))
            else n == Some(0)
  {
    if at < |bytes| { assert bytes[at..][1..] == bytes[at + 1..]; }
    if at + 1 < |bytes| { assert bytes[at..][2..] == bytes[at + 2..]; }
  }

  method NextFF(bytes: seq<byte>, at: nat) returns (ff: nat)
    requires at <= |bytes|
    ensures at <= ff <= |bytes| && (ff < |bytes| ==> bytes[ff] == FF)
    ensures DataLength(bytes[at..]) == More(ff - at, DataLength(bytes[ff..]))
  {
    hide DataLength;
    ff := at;
    while ff < |bytes| && bytes[ff] != FF
      invariant at <= ff <= |bytes|
      invariant DataLength(bytes[at..]) == More(ff - at, DataLength(bytes[ff..]))
    {
      DataUnfolds(bytes, ff);
      ff := ff + 1;
    }
  }

  /** `strip_jpeg`. */
  method StripJpeg(bytes: seq<byte>) returns (r: Result<seq<byte>, JpegError>)
    ensures r.Ok? <==> Stripped(bytes).Some?
    ensures r.Ok? ==> Stripped(bytes) == Some(r.value)
  {
    hide HeadOf, FromScan, Keeps;
    var found := JpegSegments(bytes);
    if found.Err? {
      return Err(found.error);
    }
    var segments, scan := found.value.0, found.value.1;
    var out := bytes[..2];
    ghost var pieces := PiecesAt(segments, bytes);
    for i := 0 to |segments|
      invariant out == bytes[..2] + Joined(Kept(pieces[..i]))
    {
      assert pieces[..i + 1] == pieces[..i] + [pieces[i]];
      KeptAppend(pieces[..i], pieces[i]);
      if Keeps(segments[i].0) {
        out := out + bytes[segments[i].1..segments[i].2];
      }
    }
    assert pieces[..|segments|] == pieces;
    var tail := StripScans(bytes, scan, out);
    if tail.None? {
      return Err(TruncatedSegment);
    }
    return Ok(tail.value);
  }

  lemma {:induction false} KeptAppend(pieces: seq<Piece>, p: Piece)
    ensures Joined(Kept(pieces + [p])) == Joined(Kept(pieces)) + if Keeps(p.marker) then p.bytes else []
  {
    hide Keeps;
    if pieces == [] {
      assert [p][1..] == [];
    } else {
      KeptAppend(pieces[1..], p);
      assert (pieces + [p])[1..] == pieces[1..] + [p];
    }
  }

  /** The loop from the first scan on. */
  method StripScans(bytes: seq<byte>, scan: nat, lead: seq<byte>) returns (r: Option<seq<byte>>)
    requires scan <= |bytes|
    ensures r == Behind(lead, FromScan(bytes[scan..]))
  {
    hide Fills, MarkerOf, Framed, FromScan, DataLength, Keeps;
    var out := lead;
    var at := scan;
    Unbehind(lead, FromScan(bytes[scan..]));
    while true
      invariant 0 <= at <= |bytes|
      invariant Behind(lead, FromScan(bytes[scan..])) == Behind(out, FromScan(bytes[at..]))
      decreases |bytes| - at
    {
      ScanUnfolds(bytes, at, out);
      var last := SkipFills(bytes, at);
      if last + 1 >= |bytes| {
        return Some(out);
      }
      var marker := bytes[last + 1];
      if marker == EOI {
        return Some(out + [FF, EOI]);
      }
      if Alone(marker) {
        out := out + [FF, marker];
        at := last + 2;
      } else {
        var len := ReadBe16(bytes, last + 2);
        FramedAt(bytes, at);
        if len.None? || len.value < 2 || last + 2 + len.value > |bytes| {
          return None;
        }
        var end := last + 2 + len.value;
        if marker == SOS || Keeps(marker) {
          out := out + [FF, marker] + bytes[last + 2..end];
        }
        at := end;
        if marker == SOS {
          var ff := DataEnd(bytes, at);
          if ff.None? {
            return Some(out + bytes[at..]);
          }
          out := out + bytes[at..ff.value];
          at := ff.value;
        }
      }
    }
  }

  lemma Unbehind(lead: seq<byte>, rest: Option<seq<byte>>)
    ensures Behind(lead, rest) == Behind(lead, Behind([], rest)) && lead + [] == lead
  {
    if rest.Some? { assert [] + rest.value == rest.value; }
  }

  lemma BehindBehind(a: seq<byte>, b: seq<byte>, rest: Option<seq<byte>>)
    ensures Behind(a, Behind(b, rest)) == Behind(a + b, rest)
  {
    if rest.Some? { Assoc(a, b, rest.value); }
  }

  /** One round of the loop, by position. */
  lemma ScanUnfolds(bytes: seq<byte>, at: nat, out: seq<byte>)
    requires at <= |bytes|
    ensures var b := bytes[at..];
            var kept := Behind(out, FromScan(b));
            if MarkerOf(b).None? then kept == Some(out)
            else
              var marker, last := MarkerOf(b).value, at + Fills(b);
              if marker == EOI then kept == Some(out + [FF, EOI])
              else if Alone(marker) then kept == Behind(out + [FF, marker], FromScan(bytes[last + 2..]))
              else if Framed(b).None? then kept == None
              else
                var end := at + Framed(b).value;
                var grown := if marker == SOS || Keeps(marker) then out + [FF, marker] + bytes[last + 2..end] else out;
                if marker != SOS then kept == Behind(grown, FromScan(bytes[end..]))
                else if DataLength(bytes[end..]).None? then kept == Some(grown + bytes[end..])
                else
                  var ff := end + DataLength(bytes[end..]).value;
                  kept == Behind(grown + bytes[end..ff], FromScan(bytes[ff..]))
  {
    hide Fills, Framed, DataLength, Keeps, Behind, FromScan;
    var b := bytes[at..];
    FromScanIs(b);
    BehindEnds(out);
    if MarkerOf(b).Some? && MarkerOf(b).value != EOI {
      var marker, last := MarkerOf(b).value, at + Fills(b);
      if Alone(marker) {
        assert b[Fills(b) + 2..] == bytes[last + 2..];
        BehindBehind(out, [FF, marker], FromScan(bytes[last + 2..]));
      } else if Framed(b).Some? {
        var size := Framed(b).value;
        assert b[size..] == bytes[at + size..];
        SliceOfTail(bytes, at, Fills(b) + 2, size);
        Assoc(out, [FF, marker], bytes[last + 2..at + size]);
        var body := if marker == SOS || Keeps(marker) then [FF, marker] + bytes[last + 2..at + size] else [];
        BodyThen(bytes, at + size, out, body);
      }
    }
  }

  /** One unfolding. */
  lemma FromScanIs(b: seq<byte>)
    ensures FromScan(b) ==
            if MarkerOf(b).None? then Some([])
            else
              var marker, fills := MarkerOf(b).value, Fills(b);
              if marker == EOI then Some([FF, EOI])
              else if Alone(marker) then Behind([FF, marker], FromScan(b[fills + 2..]))
              else if Framed(b).None? then None
              else
                var size := Framed(b).value;
                var body := if marker == SOS || Keeps(marker) then [FF, marker] + b[fills + 2..size] else [];
                var rest := b[size..];
                if marker != SOS then Behind(body, FromScan(rest))
                else if DataLength(rest).None? then Some(body + rest)
                else var n := DataLength(rest).value; Behind(body + rest[..n], FromScan(rest[n..]))
  {
    hide Fills, Framed, DataLength, Keeps, Behind;
  }

  lemma BehindEnds(out: seq<byte>)
    ensures Behind(out, Some([])) == Some(out) && Behind(out, None) == None && out + [] == out
    ensures forall x: seq<byte> :: Behind(out, Some(x)) == Some(out + x)
  {
    assert out + [] == out;
  }

  lemma BodyThen(bytes: seq<byte>, end: nat, out: seq<byte>, body: seq<byte>)
    requires end <= |bytes|
    ensures Behind(out, Behind(body, FromScan(bytes[end..]))) == Behind(out + body, FromScan(bytes[end..]))
    ensures Behind(out, Some(body + bytes[end..])) == Some((out + body) + bytes[end..])
    ensures DataLength(bytes[end..]).Some? ==>
              var n := DataLength(bytes[end..]).value;
              Behind(out, Behind(body + bytes[end..][..n], FromScan(bytes[end..][n..])))
              == Behind((out + body) + bytes[end..end + n], FromScan(bytes[end + n..]))
  {
    hide DataLength, FromScan;
    var rest := bytes[end..];
    BehindBehind(out, body, FromScan(rest));
    Assoc(out, body, rest);
    if DataLength(rest).Some? {
      var n := DataLength(rest).value;
      assert rest[..n] == bytes[end..end + n] && rest[n..] == bytes[end + n..];
      Assoc(out, body, rest[..n]);
      BehindBehind(out, body + rest[..n], FromScan(rest[n..]));
    }
  }

  // ------------------------------------------------------------------ on every input

  lemma {:induction false} FromScanShrinks(b: seq<byte>)
    requires FromScan(b).Some?
    ensures |FromScan(b).value| <= |b|
    decreases |b|
  {
    hide Keeps;
    if MarkerOf(b).Some? && MarkerOf(b).value != EOI {
      var marker := MarkerOf(b).value;
      if Alone(marker) {
        FromScanShrinks(b[Fills(b) + 2..]);
      } else {
        var rest := b[Framed(b).value..];
        if marker != SOS {
          FromScanShrinks(rest);
        } else if DataLength(rest).Some? {
          FromScanShrinks(rest[DataLength(rest).value..]);
        }
      }
    }
  }

  lemma {:induction false} HeadJoins(b: seq<byte>)
    requires HeadOf(b).Some?
    ensures Joined(HeadOf(b).value.pieces) + HeadOf(b).value.scan == b
    ensures |Joined(Kept(HeadOf(b).value.pieces))| + |HeadOf(b).value.scan| <= |b|
    decreases |b|
  {
    hide Keeps, Fills, Framed;
    var marker := MarkerOf(b).value;
    if marker != SOS {
      var size := SizeOf(b, marker).value;
      HeadJoins(b[size..]);
      var pieces := HeadOf(b).value.pieces;
      assert pieces[1..] == HeadOf(b[size..]).value.pieces;
      assert b == b[..size] + b[size..];
    }
  }

  /** The stored bytes are never more than the given ones. */
  lemma {:induction false} NeverLonger(bytes: seq<byte>)
    requires Stripped(bytes).Some?
    ensures |Stripped(bytes).value| <= |bytes|
  {
    hide HeadOf, FromScan;
    HeadJoins(bytes[2..]);
    FromScanShrinks(HeadOf(bytes[2..]).value.scan);
  }

  /** A segment as the reader cut it can be cut again, whatever follows. */
  ghost predicate IsPiece(p: Piece) {
    var b := p.bytes;
    b != [] && b[0] == FF && MarkerOf(b) == Some(p.marker) && p.marker != SOS && SizeOf(b, p.marker) == Some(|b|)
  }

  lemma {:induction false} FillsOfPrefix(b: seq<byte>, n: nat)
    requires n <= |b| && Fills(b[..n]) + 1 < n
    ensures Fills(b) == Fills(b[..n])
  {
    if b[1] == FF {
      assert b[..n][1..] == b[1..][..n - 1];
      FillsOfPrefix(b[1..], n - 1);
    }
  }

  lemma {:induction false} FillsOfWhole(b: seq<byte>, n: nat)
    requires n <= |b| && Fills(b) + 1 < n
    ensures Fills(b) == Fills(b[..n])
  {
    if b[1] == FF {
      assert b[..n][1..] == b[1..][..n - 1];
      FillsOfWhole(b[1..], n - 1);
    }
  }

  lemma SizeOfPrefix(b: seq<byte>, n: nat)
    requires n <= |b| && Fills(b) + 1 < n && MarkerOf(b).Some?
    ensures MarkerOf(b[..n]) == MarkerOf(b)
    ensures SizeOf(b, MarkerOf(b).value) == Some(n) <==> SizeOf(b[..n], MarkerOf(b).value) == Some(n)
  {
    hide Fills, Framed;
    FillsOfWhole(b, n);
    FramedPrefix(b, n);
  }

  lemma FramedPrefix(b: seq<byte>, n: nat)
    requires n <= |b| && Fills(b) == Fills(b[..n])
    ensures Framed(b) == Some(n) <==> Framed(b[..n]) == Some(n)
  {
    hide Fills;
    var at := Fills(b) + 2;
    if at + 2 <= n {
      assert b[..n][at] == b[at] && b[..n][at + 1] == b[at + 1];
      assert ReadBe16(b[..n], at) == ReadBe16(b, at);
    }
  }

  lemma {:induction false} HeadHasPieces(b: seq<byte>)
    requires HeadOf(b).Some?
    ensures forall p :: p in HeadOf(b).value.pieces ==> IsPiece(p)
    ensures var scan := HeadOf(b).value.scan; scan != [] && scan[0] == FF && MarkerOf(scan) == Some(SOS)
    decreases |b|
  {
    hide Fills, Framed, IsPiece;
    var marker := MarkerOf(b).value;
    if marker != SOS {
      var size := SizeOf(b, marker).value;
      HeadHasPieces(b[size..]);
      PieceOfHead(b, marker, size);
    }
  }

  lemma PieceOfHead(b: seq<byte>, marker: byte, size: nat)
    requires b != [] && b[0] == FF && MarkerOf(b) == Some(marker) && marker != SOS && SizeOf(b, marker) == Some(size)
    ensures IsPiece(Piece(marker, b[..size]))
  {
    hide Fills, Framed;
    SizeOfPrefix(b, size);
  }

  /** Pieces put before a scan are read back as they are. */
  lemma {:induction false} HeadOfPieces(pieces: seq<Piece>, scan: seq<byte>)
    requires forall p :: p in pieces ==> IsPiece(p)
    requires scan != [] && scan[0] == FF && MarkerOf(scan) == Some(SOS)
    ensures HeadOf(Joined(pieces) + scan) == Some(Head(pieces, scan))
  {
    hide Fills, Framed, MarkerOf, SizeOf;
    if pieces == [] {
      assert Joined(pieces) + scan == scan;
    } else {
      var p, rest := pieces[0], Joined(pieces[1..]) + scan;
      HeadOfPieces(pieces[1..], scan);
      assert IsPiece(p);
      Assoc(p.bytes, Joined(pieces[1..]), scan);
      PieceReads(p, rest);
      var b := p.bytes + rest;
      assert b[..|p.bytes|] == p.bytes && b[|p.bytes|..] == rest;
      assert pieces == [p] + pieces[1..];
    }
  }

  lemma PieceReads(p: Piece, rest: seq<byte>)
    requires IsPiece(p)
    ensures var b := p.bytes + rest; MarkerOf(b) == Some(p.marker) && SizeOf(b, p.marker) == Some(|p.bytes|)
  {
    var b := p.bytes + rest;
    assert b[..|p.bytes|] == p.bytes;
    FillsOfPrefix(b, |p.bytes|);
    hide Fills;
    SizeOfPrefix(b, |p.bytes|);
  }

  lemma {:induction false} KeptOf(pieces: seq<Piece>)
    ensures forall p :: p in Kept(pieces) ==> p in pieces
    ensures FirstFrame(Kept(pieces)) == FirstFrame(pieces)
  {
    if pieces != [] {
      KeptOf(pieces[1..]);
      assert forall p :: p in pieces[1..] ==> p in pieces;
    }
  }

  /** The stored image measures what the given one did, on every accepted input. */
  lemma {:induction false} StripKeepsDimensions(bytes: seq<byte>)
    requires Stripped(bytes).Some?
    ensures Dimensions(Stripped(bytes).value) == Dimensions(bytes)
    ensures Stripped(bytes).value[..2] == bytes[..2]
  {
    hide HeadOf, FromScan, Fills, Framed, Kept, Joined, FirstFrame, IsPiece, FrameSize;
    var head := HeadOf(bytes[2..]).value;
    HeadHasPieces(bytes[2..]);
    KeptOf(head.pieces);
    var tail := FromScan(head.scan).value;
    ScanStays(head.scan);
    HeadOfPieces(Kept(head.pieces), tail);
    var out := Stripped(bytes).value;
    Assoc(bytes[..2], Joined(Kept(head.pieces)), tail);
    assert out[2..] == Joined(Kept(head.pieces)) + tail;
  }

  /** What is kept from the scan on begins with the scan's marker. */
  lemma ScanStays(scan: seq<byte>)
    requires MarkerOf(scan) == Some(SOS) && FromScan(scan).Some?
    ensures var tail := FromScan(scan).value; tail != [] && tail[0] == FF && MarkerOf(tail) == Some(SOS)
  {
    hide Fills, DataLength, Framed;
    var tail := FromScan(scan).value;
    assert tail[0] == FF && tail[1] == SOS;
    NoFills(tail);
  }

  lemma NoFills(b: seq<byte>)
    requires |b| >= 2 && b[1] != FF
    ensures Fills(b) == 0
  {
  }
}
