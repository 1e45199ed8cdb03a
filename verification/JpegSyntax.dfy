/** JPEG streams by the marker syntax of Annex B, section B.1.1, of ITU-T T.81, and what
    metadata removal does to them. */
module JpegSyntax {
  import opened Contracts
  import opened Bytes
  import opened Jpeg

  // ------------------------------------------------------------------ the syntax

  /** A marker segment behind `fill` fill bytes; TEM has no payload and no length. */
  datatype RawSegment = Segment(fill: nat, marker: byte, payload: seq<byte>)

  predicate IsSegment(s: RawSegment) {
    s.marker != 0 && s.marker != FF && !(0xd0 <= s.marker <= 0xda)
    && |s.payload| <= 65533 && (s.marker == 0x01 ==> s.payload == [])
  }

  type Marked = s: RawSegment | IsSegment(s) witness Segment(0, 0xfe, [])

  /** A part of entropy-coded data. */
  datatype RawUnit = Coded(b: byte) | StuffedZero | Restart(fill: nat, marker: byte)

  type Unit = u: RawUnit | (u.Coded? ==> u.b != FF) && (u.Restart? ==> 0xd0 <= u.marker <= 0xd7) witness StuffedZero

  datatype RawScan = Scan(fill: nat, header: seq<byte>, data: seq<Unit>)

  type Scan = s: RawScan | |s.header| <= 65533 witness Scan(0, [], [])

  /** What may stand behind the first scan. */
  datatype Part = AScan(scan: Scan) | ASegment(segment: Marked)

  /** `fill` fill bytes precede the end-of-image marker. */
  datatype Picture = Picture(head: seq<Marked>, first: Scan, parts: seq<Part>, fill: nat)

  function Fill(n: nat): (b: seq<byte>)
    ensures |b| == n && forall i :: 0 <= i < n ==> b[i] == FF
  {
    seq(n, i => FF)
  }

  /** A segment without its fill bytes. */
  function Core(s: Marked): seq<byte> {
    [FF, s.marker] + if Alone(s.marker) then [] else Be16(|s.payload| + 2) + s.payload
  }

  function UnitBytes(u: Unit): seq<byte> {
    match u
    case Coded(b) => [b]
    case StuffedZero => [FF, 0]
    case Restart(fill, marker) => Fill(fill) + [FF, marker]
  }

  function DataBytes(units: seq<Unit>): seq<byte> {
    if units == [] then [] else UnitBytes(units[0]) + DataBytes(units[1..])
  }

  function ScanHeader(s: Scan): seq<byte> {
    [FF, SOS] + (Be16(|s.header| + 2) + s.header)
  }

  function HeadBytes(head: seq<Marked>): seq<byte> {
    if head == [] then [] else Fill(head[0].fill) + Core(head[0]) + HeadBytes(head[1..])
  }

  /** What follows a scan's data, without the fill bytes of its first marker. */
  function TailCore(parts: seq<Part>, end: nat): seq<byte>
    decreases |parts|, 0
  {
    if parts == [] then [FF, EOI]
    else match parts[0]
      case ASegment(s) => Core(s) + TailBytes(parts[1..], end)
      case AScan(s) => ScanHeader(s) + (DataBytes(s.data) + TailBytes(parts[1..], end))
  }

  function TailBytes(parts: seq<Part>, end: nat): seq<byte>
    decreases |parts|, 1
  {
    Fill(FirstFill(parts, end)) + TailCore(parts, end)
  }

  function FirstFill(parts: seq<Part>, end: nat): nat {
    if parts == [] then end
    else match parts[0]
      case ASegment(s) => s.fill
      case AScan(s) => s.fill
  }

  function Serialize(p: Picture): seq<byte> {
    [FF, SOI] + (HeadBytes(p.head) + TailBytes([AScan(p.first)] + p.parts, p.fill))
  }

  // ------------------------------------------------------------------ the same picture without metadata

  function KeptHead(head: seq<Marked>): seq<Marked> {
    if head == [] then []
    else if Keeps(head[0].marker) then [head[0]] + KeptHead(head[1..])
    else KeptHead(head[1..])
  }

  /** Fill bytes right behind entropy-coded data stay where they are; others go. `carry` is how
      many stand before the next marker. */
  function KeptParts(parts: seq<Part>, end: nat, carry: nat): seq<Part> {
    if parts == [] then []
    else match parts[0]
      case ASegment(s) =>
        if Keeps(s.marker) then [ASegment(Segment(carry, s.marker, s.payload))] + KeptParts(parts[1..], end, 0)
        else KeptParts(parts[1..], end, carry)
      case AScan(s) =>
        [AScan(Scan(carry, s.header, s.data))] + KeptParts(parts[1..], end, FirstFill(parts[1..], end))
  }

  function KeptEnd(parts: seq<Part>, end: nat, carry: nat): nat {
    if parts == [] then carry
    else match parts[0]
      case ASegment(s) => KeptEnd(parts[1..], end, if Keeps(s.marker) then 0 else carry)
      case AScan(s) => KeptEnd(parts[1..], end, FirstFill(parts[1..], end))
  }

  function WithoutMetadata(p: Picture): Picture {
    var carry := FirstFill(p.parts, p.fill);
    Picture(KeptHead(p.head), Scan(0, p.first.header, p.first.data), KeptParts(p.parts, p.fill, carry),
            KeptEnd(p.parts, p.fill, carry))
  }

  // ------------------------------------------------------------------ reading a marker back

  lemma {:induction false} FillsOf(n: nat, marker: byte, x: seq<byte>)
    requires marker != FF
    ensures Fills(Fill(n) + ([FF, marker] + x)) == n
    ensures MarkerOf(Fill(n) + ([FF, marker] + x)) == Some(marker)
  {
    var b := Fill(n) + ([FF, marker] + x);
    if n > 0 {
      FillsOf(n - 1, marker, x);
      assert b[1..] == Fill(n - 1) + ([FF, marker] + x);
    }
  }

  lemma FramedOf(n: nat, marker: byte, payload: seq<byte>, x: seq<byte>)
    requires marker != FF && |payload| <= 65533
    ensures var b := Fill(n) + (([FF, marker] + (Be16(|payload| + 2) + payload)) + x);
            && Fills(b) == n && MarkerOf(b) == Some(marker)
            && Framed(b) == Some(n + 4 + |payload|)
            && b[..n + 4 + |payload|] == Fill(n) + ([FF, marker] + (Be16(|payload| + 2) + payload))
            && b[n + 4 + |payload|..] == x
            && b[n + 2..n + 4 + |payload|] == Be16(|payload| + 2) + payload
  {
    hide Fills, MarkerOf, Be16;
    var length := Be16(|payload| + 2);
    var body := [FF, marker] + (length + payload);
    var b := Fill(n) + (body + x);
    Assoc([FF, marker], length + payload, x);
    FillsOf(n, marker, (length + payload) + x);
    Slices(Fill(n), [FF, marker], length, payload, x);
    ReadsBe16(|payload| + 2, b, n + 2);
  }

  lemma Slices(a: seq<byte>, m: seq<byte>, l: seq<byte>, p: seq<byte>, x: seq<byte>)
    requires |m| == 2 && |l| == 2
    ensures var b := a + ((m + (l + p)) + x);
            && b[|a| + 2..|a| + 4] == l
            && b[..|a| + 4 + |p|] == a + (m + (l + p))
            && b[|a| + 4 + |p|..] == x
            && b[|a| + 2..|a| + 4 + |p|] == l + p
  {
  }

  lemma AloneOf(n: nat, marker: byte, x: seq<byte>)
    requires Alone(marker)
    ensures var b := Fill(n) + ([FF, marker] + x);
            && Fills(b) == n && MarkerOf(b) == Some(marker) && SizeOf(b, marker) == Some(n + 2)
            && b[..n + 2] == Fill(n) + [FF, marker] && b[n + 2..] == x
  {
    FillsOf(n, marker, x);
  }

  // ------------------------------------------------------------------ before the scan

  function PiecesOf(head: seq<Marked>): seq<Piece> {
    if head == [] then []
    else [Piece(head[0].marker, Fill(head[0].fill) + Core(head[0]))] + PiecesOf(head[1..])
  }

  /** One segment is read as it was written. */
  lemma SegmentReads(s: Marked, x: seq<byte>)
    ensures var b := Fill(s.fill) + (Core(s) + x);
            && b != [] && b[0] == FF && MarkerOf(b) == Some(s.marker)
            && SizeOf(b, s.marker) == Some(s.fill + |Core(s)|)
            && b[..s.fill + |Core(s)|] == Fill(s.fill) + Core(s) && b[s.fill + |Core(s)|..] == x
  {
    hide Fills, MarkerOf, Framed, Be16;
    if Alone(s.marker) {
      assert Core(s) == [FF, s.marker];
      AloneOf(s.fill, s.marker, x);
    } else {
      FramedOf(s.fill, s.marker, s.payload, x);
    }
  }

  lemma {:induction false} HeadReads(head: seq<Marked>, fill: nat, x: seq<byte>)
    ensures var scan := Fill(fill) + ([FF, SOS] + x);
            HeadOf(HeadBytes(head) + scan) == Some(Head(PiecesOf(head), scan))
  {
    var scan := Fill(fill) + ([FF, SOS] + x);
    hide Fills, MarkerOf, SizeOf, Core;
    if head == [] {
      FillsOf(fill, SOS, x);
      assert HeadBytes(head) + scan == scan;
    } else {
      var s, rest := head[0], HeadBytes(head[1..]) + scan;
      HeadReads(head[1..], fill, x);
      SegmentReads(s, rest);
      Assoc(Fill(s.fill) + Core(s), HeadBytes(head[1..]), scan);
      Assoc(Fill(s.fill), Core(s), rest);
      var b := Fill(s.fill) + (Core(s) + rest);
      assert b == HeadBytes(head) + scan;
    }
  }

  lemma {:induction false} KeptPieces(head: seq<Marked>)
    ensures Joined(Kept(PiecesOf(head))) == HeadBytes(KeptHead(head))
  {
    hide Keeps, Core;
    if head != [] {
      KeptPieces(head[1..]);
      assert PiecesOf(head)[1..] == PiecesOf(head[1..]);
    }
  }

  // ------------------------------------------------------------------ entropy-coded data

  lemma {:induction false} FillEnds(fill: nat, marker: byte, x: seq<byte>)
    requires marker != 0 && marker != FF && !(0xd0 <= marker <= 0xd7)
    ensures DataLength(Fill(fill) + ([FF, marker] + x)) == Some(fill)
  {
    var b := Fill(fill) + ([FF, marker] + x);
    if fill > 0 {
      FillEnds(fill - 1, marker, x);
      assert b[1..] == Fill(fill - 1) + ([FF, marker] + x);
    }
  }

  lemma {:induction false} RestartPasses(fill: nat, marker: byte, x: seq<byte>)
    requires 0xd0 <= marker <= 0xd7
    ensures DataLength(Fill(fill) + ([FF, marker] + x)) == More(fill + 2, DataLength(x))
  {
    var b := Fill(fill) + ([FF, marker] + x);
    if fill > 0 {
      RestartPasses(fill - 1, marker, x);
      assert b[1..] == Fill(fill - 1) + ([FF, marker] + x);
    } else {
      assert b[2..] == x;
    }
  }

  lemma UnitPasses(u: Unit, x: seq<byte>)
    ensures DataLength(UnitBytes(u) + x) == More(|UnitBytes(u)|, DataLength(x))
  {
    match u {
      case Coded(b) => assert ([b] + x)[1..] == x;
      case StuffedZero => assert ([FF, 0] + x)[2..] == x;
      case Restart(fill, marker) =>
        RestartPasses(fill, marker, x);
        Assoc(Fill(fill), [FF, marker], x);
    }
  }

  lemma {:induction false} DataReads(units: seq<Unit>, fill: nat, marker: byte, x: seq<byte>)
    requires marker != 0 && marker != FF && !(0xd0 <= marker <= 0xd7)
    ensures DataLength(DataBytes(units) + (Fill(fill) + ([FF, marker] + x))) == Some(|DataBytes(units)| + fill)
  {
    hide DataLength, UnitBytes;
    var rest := Fill(fill) + ([FF, marker] + x);
    if units == [] {
      FillEnds(fill, marker, x);
      assert DataBytes(units) + rest == rest;
    } else {
      DataReads(units[1..], fill, marker, x);
      UnitPasses(units[0], DataBytes(units[1..]) + rest);
      Assoc(UnitBytes(units[0]), DataBytes(units[1..]), rest);
    }
  }

  // ------------------------------------------------------------------ from the scan on

  /** The kept tail begins with the carried fill bytes. */
  lemma {:induction false} CarryFirst(parts: seq<Part>, end: nat, carry: nat)
    ensures FirstFill(KeptParts(parts, end, carry), KeptEnd(parts, end, carry)) == carry
    ensures TailCore(KeptParts(parts, end, carry), KeptEnd(parts, end, carry))
              == TailCore(KeptParts(parts, end, 0), KeptEnd(parts, end, 0))
  {
    hide Keeps, Core;
    if parts != [] {
      CarryFirst(parts[1..], end, carry);
      match parts[0] {
        case ASegment(s) =>
          if Keeps(s.marker) {
            var rest := KeptParts(parts[1..], end, 0);
            assert ([ASegment(Segment(carry, s.marker, s.payload))] + rest)[1..] == rest;
            assert ([ASegment(Segment(0, s.marker, s.payload))] + rest)[1..] == rest;
            SameCore(carry, s);
          }
        case AScan(s) =>
          var rest := KeptParts(parts[1..], end, FirstFill(parts[1..], end));
          assert ([AScan(Scan(carry, s.header, s.data))] + rest)[1..] == rest;
          assert ([AScan(Scan(0, s.header, s.data))] + rest)[1..] == rest;
      }
    }
  }

  lemma SameCore(carry: nat, s: Marked)
    ensures Core(Segment(carry, s.marker, s.payload)) == Core(s) == Core(Segment(0, s.marker, s.payload))
  {
  }

  /** The kept tail, its first fill bytes aside. */
  function KeptTail(parts: seq<Part>, end: nat): seq<byte> {
    TailCore(KeptParts(parts, end, 0), KeptEnd(parts, end, 0))
  }

  lemma {:induction false} TailReads(parts: seq<Part>, end: nat, fill: nat, trailing: seq<byte>)
    ensures FromScan(Fill(fill) + (TailCore(parts, end) + trailing)) == Some(KeptTail(parts, end))
    decreases |parts|
  {
    hide FromScan, TailCore, KeptTail, TailBytes, Core, Keeps;
    if parts == [] {
      EndReads(end, fill, trailing);
    } else {
      match parts[0] {
        case ASegment(s) =>
          TailReads(parts[1..], end, FirstFill(parts[1..], end), trailing);
          SegmentStep(parts, end, fill, trailing);
          KeptSegment(parts, end);
        case AScan(s) =>
          TailReads(parts[1..], end, 0, trailing);
          ScanStep(parts, end, fill, trailing);
          KeptScan(parts, end);
      }
    }
  }

  lemma EndReads(end: nat, fill: nat, trailing: seq<byte>)
    ensures FromScan(Fill(fill) + (TailCore([], end) + trailing)) == Some(KeptTail([], end))
  {
    FillsOf(fill, EOI, trailing);
  }

  lemma SegmentStep(parts: seq<Part>, end: nat, fill: nat, trailing: seq<byte>)
    requires parts != [] && parts[0].ASegment?
    ensures var s := parts[0].segment;
            FromScan(Fill(fill) + (TailCore(parts, end) + trailing))
            == Behind(if Keeps(s.marker) then Core(s) else [],
                      FromScan(Fill(FirstFill(parts[1..], end)) + (TailCore(parts[1..], end) + trailing)))
    ensures forall b: seq<byte> :: Behind([], Some(b)) == Some(b)
  {
    hide FromScan, Core, Keeps;
    var s := parts[0].segment;
    var more := TailBytes(parts[1..], end);
    assert TailCore(parts, end) == Core(s) + more;
    hide TailCore;
    Assoc(Fill(FirstFill(parts[1..], end)), TailCore(parts[1..], end), trailing);
    Assoc(Core(s), more, trailing);
    SegmentFromScan(s, fill, more + trailing);
    forall b: seq<byte> ensures Behind([], Some(b)) == Some(b) {
      assert [] + b == b;
    }
  }

  lemma ScanStep(parts: seq<Part>, end: nat, fill: nat, trailing: seq<byte>)
    requires parts != [] && parts[0].AScan?
    ensures var s := parts[0].scan;
            FromScan(Fill(fill) + (TailCore(parts, end) + trailing))
            == Behind(ScanHeader(s) + (DataBytes(s.data) + Fill(FirstFill(parts[1..], end))),
                      FromScan(Fill(0) + (TailCore(parts[1..], end) + trailing)))
    ensures var s := parts[0].scan;
            forall b: seq<byte> ::
              Behind(ScanHeader(s) + (DataBytes(s.data) + Fill(FirstFill(parts[1..], end))), Some(b))
              == Some(ScanHeader(s) + (DataBytes(s.data) + (Fill(FirstFill(parts[1..], end)) + b)))
  {
    hide FromScan, ScanHeader, DataBytes;
    var s := parts[0].scan;
    ScanFromScan(s, parts[1..], end, fill, trailing);
    var h, d, f := ScanHeader(s), DataBytes(s.data), Fill(FirstFill(parts[1..], end));
    forall b: seq<byte> ensures Behind(h + (d + f), Some(b)) == Some(h + (d + (f + b))) {
      Assoc(h, d + f, b);
      Assoc(d, f, b);
    }
  }

  lemma SegmentFromScan(s: Marked, fill: nat, x: seq<byte>)
    ensures FromScan(Fill(fill) + (Core(s) + x)) == Behind(if Keeps(s.marker) then Core(s) else [], FromScan(x))
  {
    hide Fills, MarkerOf, Framed, Keeps, Be16;
    if Alone(s.marker) {
      assert Core(s) == [FF, s.marker];
      assert Keeps(s.marker) by { TemIsKept(s.marker); }
      AloneOf(fill, s.marker, x);
    } else {
      FramedOf(fill, s.marker, s.payload, x);
    }
  }

  lemma TemIsKept(marker: byte)
    requires Alone(marker)
    ensures Keeps(marker)
  {
  }

  lemma KeptSegment(parts: seq<Part>, end: nat)
    requires parts != [] && parts[0].ASegment?
    ensures var s := parts[0].segment;
            KeptTail(parts, end) ==
            if Keeps(s.marker) then Core(s) + TailBytes(KeptParts(parts[1..], end, 0), KeptEnd(parts[1..], end, 0))
            else KeptTail(parts[1..], end)
    ensures TailBytes(KeptParts(parts[1..], end, 0), KeptEnd(parts[1..], end, 0)) == KeptTail(parts[1..], end)
  {
    hide Keeps, Core;
    var s := parts[0].segment;
    CarryFirst(parts[1..], end, 0);
    assert Fill(0) + KeptTail(parts[1..], end) == KeptTail(parts[1..], end);
    if Keeps(s.marker) {
      var rest := KeptParts(parts[1..], end, 0);
      assert ([ASegment(Segment(0, s.marker, s.payload))] + rest)[1..] == rest;
      SameCore(0, s);
    }
  }

  lemma KeptScan(parts: seq<Part>, end: nat)
    requires parts != [] && parts[0].AScan?
    ensures var s := parts[0].scan;
            KeptTail(parts, end) == ScanHeader(s)
              + (DataBytes(s.data) + (Fill(FirstFill(parts[1..], end)) + KeptTail(parts[1..], end)))
  {
    hide Core, DataBytes, Be16, Keeps;
    var s := parts[0].scan;
    var carry := FirstFill(parts[1..], end);
    CarryFirst(parts[1..], end, carry);
    var rest, last := KeptParts(parts[1..], end, carry), KeptEnd(parts[1..], end, carry);
    var all := [AScan(Scan(0, s.header, s.data))] + rest;
    assert KeptParts(parts, end, 0) == all && KeptEnd(parts, end, 0) == last;
    assert all[1..] == rest && all[0] == AScan(Scan(0, s.header, s.data));
    assert TailCore(all, last) == ScanHeader(Scan(0, s.header, s.data)) + (DataBytes(s.data) + TailBytes(rest, last));
  }

  /** What follows a scan's data begins with a marker that ends it. */
  lemma TailBegins(parts: seq<Part>, end: nat) returns (marker: byte, x: seq<byte>)
    ensures marker != 0 && marker != FF && !(0xd0 <= marker <= 0xd7)
    ensures TailCore(parts, end) == [FF, marker] + x
  {
    if parts == [] {
      marker, x := EOI, [];
      assert [FF, EOI] + [] == [FF, EOI];
    } else {
      match parts[0] {
        case ASegment(s) =>
          marker := s.marker;
          var body := if Alone(s.marker) then [] else Be16(|s.payload| + 2) + s.payload;
          x := body + TailBytes(parts[1..], end);
          Assoc([FF, marker], body, TailBytes(parts[1..], end));
        case AScan(s) =>
          marker := SOS;
          x := (Be16(|s.header| + 2) + s.header) + (DataBytes(s.data) + TailBytes(parts[1..], end));
          Assoc([FF, marker], Be16(|s.header| + 2) + s.header, DataBytes(s.data) + TailBytes(parts[1..], end));
      }
    }
  }

  lemma ScanFromScan(s: Scan, parts: seq<Part>, end: nat, fill: nat, trailing: seq<byte>)
    ensures FromScan(Fill(fill) + ((ScanHeader(s) + (DataBytes(s.data) + TailBytes(parts, end))) + trailing))
            == Behind(ScanHeader(s) + (DataBytes(s.data) + Fill(FirstFill(parts, end))),
                      FromScan(Fill(0) + (TailCore(parts, end) + trailing)))
  {
    hide Fills, MarkerOf, Framed, Be16, Keeps, TailCore, DataBytes, DataLength;
    var data, more := DataBytes(s.data), FirstFill(parts, end);
    var marker, x := TailBegins(parts, end);
    var rest := Fill(more) + ([FF, marker] + (x + trailing));
    DataReads(s.data, more, marker, x + trailing);
    Assoc([FF, marker], x, trailing);
    Assoc(Fill(more), TailCore(parts, end), trailing);
    Assoc(data, TailBytes(parts, end), trailing);
    Assoc(ScanHeader(s), data + TailBytes(parts, end), trailing);
    FramedOf(fill, SOS, s.header, data + rest);
    Cut(data, Fill(more), TailCore(parts, end) + trailing);
    Assoc(ScanHeader(s), data, Fill(more));
    assert Fill(0) + (TailCore(parts, end) + trailing) == TailCore(parts, end) + trailing;
  }

  lemma Cut(a: seq<byte>, b: seq<byte>, c: seq<byte>)
    ensures (a + (b + c))[..|a| + |b|] == a + b && (a + (b + c))[|a| + |b|..] == c
  {
  }

  // ------------------------------------------------------------------ whole pictures

  /** Stripping a serialized picture, whatever trails it, gives the serialization of the same
      picture without its metadata segments. */
  lemma {:induction false} StripsExactlyTheMetadata(p: Picture, trailing: seq<byte>)
    ensures Stripped(Serialize(p) + trailing) == Some(Serialize(WithoutMetadata(p)))
  {
    hide HeadOf, FromScan, TailCore, Kept, Joined, KeptParts, KeptEnd;
    var parts := [AScan(p.first)] + p.parts;
    var fill := p.first.fill;
    var bytes := Serialize(p) + trailing;
    var rest := TailCore(parts, p.fill) + trailing;
    Assoc([FF, SOI], HeadBytes(p.head) + TailBytes(parts, p.fill), trailing);
    Assoc(HeadBytes(p.head), TailBytes(parts, p.fill), trailing);
    Assoc(Fill(fill), TailCore(parts, p.fill), trailing);
    assert bytes == [FF, SOI] + (HeadBytes(p.head) + (Fill(fill) + rest));
    assert bytes[2..] == HeadBytes(p.head) + (Fill(fill) + rest) && bytes[..2] == [FF, SOI];
    var x := ScanBegins(p);
    Assoc([FF, SOS], x, trailing);
    HeadReads(p.head, fill, x + trailing);
    TailReads(parts, p.fill, fill, trailing);
    KeptPieces(p.head);
    KeptFirst(p);
    Assoc([FF, SOI], HeadBytes(KeptHead(p.head)), KeptTail(parts, p.fill));
  }

  lemma ScanBegins(p: Picture) returns (x: seq<byte>)
    ensures TailCore([AScan(p.first)] + p.parts, p.fill) == [FF, SOS] + x
  {
    var parts := [AScan(p.first)] + p.parts;
    assert parts[1..] == p.parts;
    var rest := DataBytes(p.first.data) + TailBytes(p.parts, p.fill);
    x := (Be16(|p.first.header| + 2) + p.first.header) + rest;
    Assoc([FF, SOS], Be16(|p.first.header| + 2) + p.first.header, rest);
  }

  lemma KeptFirst(p: Picture)
    ensures var parts := [AScan(p.first)] + p.parts; var q := WithoutMetadata(p);
            TailBytes([AScan(q.first)] + q.parts, q.fill) == KeptTail(parts, p.fill)
  {
    hide Core, DataBytes;
    var parts, q := [AScan(p.first)] + p.parts, WithoutMetadata(p);
    assert parts[1..] == p.parts;
    assert KeptParts(parts, p.fill, 0) == [AScan(q.first)] + q.parts;
    assert KeptEnd(parts, p.fill, 0) == q.fill;
    assert Fill(0) + KeptTail(parts, p.fill) == KeptTail(parts, p.fill);
  }

  // ------------------------------------------------------------------ what is kept

  /** What a picture consists of, fill bytes aside. */
  datatype Content = SegmentContent(marker: byte, payload: seq<byte>) | ScanContent(header: seq<byte>, data: seq<Unit>)

  function HeadContents(head: seq<Marked>): seq<Content> {
    if head == [] then [] else [SegmentContent(head[0].marker, head[0].payload)] + HeadContents(head[1..])
  }

  function PartContents(parts: seq<Part>): seq<Content> {
    if parts == [] then []
    else [match parts[0] case ASegment(s) => SegmentContent(s.marker, s.payload) case AScan(s) => ScanContent(s.header, s.data)]
         + PartContents(parts[1..])
  }

  function Contents(p: Picture): seq<Content> {
    HeadContents(p.head) + PartContents([AScan(p.first)] + p.parts)
  }

  function NoMetadata(contents: seq<Content>): seq<Content> {
    if contents == [] then []
    else if IsMetadata(contents[0]) then NoMetadata(contents[1..])
    else [contents[0]] + NoMetadata(contents[1..])
  }

  predicate IsMetadata(c: Content) {
    c.SegmentContent? && !Keeps(c.marker)
  }

  lemma {:induction false} NoMetadataConcat(a: seq<Content>, b: seq<Content>)
    ensures NoMetadata(a + b) == NoMetadata(a) + NoMetadata(b)
  {
    hide IsMetadata;
    if a == [] {
      assert a + b == b;
    } else {
      NoMetadataConcat(a[1..], b);
      assert (a + b)[1..] == a[1..] + b && (a + b)[0] == a[0];
      var x, y := NoMetadata(a[1..]), NoMetadata(b);
      assert ([a[0]] + x) + y == [a[0]] + (x + y);
    }
  }

  lemma {:induction false} HeadKeeps(head: seq<Marked>)
    ensures HeadContents(KeptHead(head)) == NoMetadata(HeadContents(head))
  {
    hide Keeps;
    if head != [] {
      HeadKeeps(head[1..]);
      assert HeadContents(head)[1..] == HeadContents(head[1..]);
      if Keeps(head[0].marker) { assert ([head[0]] + KeptHead(head[1..]))[1..] == KeptHead(head[1..]); }
    }
  }

  lemma {:induction false} PartsKeep(parts: seq<Part>, end: nat, carry: nat)
    ensures PartContents(KeptParts(parts, end, carry)) == NoMetadata(PartContents(parts))
  {
    hide Keeps;
    if parts != [] {
      assert PartContents(parts)[1..] == PartContents(parts[1..]);
      match parts[0] {
        case ASegment(s) =>
          var next := if Keeps(s.marker) then 0 else carry;
          PartsKeep(parts[1..], end, next);
          var rest := KeptParts(parts[1..], end, next);
          if Keeps(s.marker) { assert ([ASegment(Segment(carry, s.marker, s.payload))] + rest)[1..] == rest; }
        case AScan(s) =>
          var next := FirstFill(parts[1..], end);
          PartsKeep(parts[1..], end, next);
          var rest := KeptParts(parts[1..], end, next);
          assert ([AScan(Scan(carry, s.header, s.data))] + rest)[1..] == rest;
      }
    }
  }

  /** Every scan and every other segment stays, in order, byte for byte; only metadata goes. */
  lemma {:induction false} OnlyMetadataGoes(p: Picture)
    ensures Contents(WithoutMetadata(p)) == NoMetadata(Contents(p))
  {
    hide Keeps, KeptParts, KeptEnd, KeptHead;
    var q := WithoutMetadata(p);
    HeadKeeps(p.head);
    PartsKeep(p.parts, p.fill, FirstFill(p.parts, p.fill));
    NoMetadataConcat(HeadContents(p.head), PartContents([AScan(p.first)] + p.parts));
    var first := ScanContent(p.first.header, p.first.data);
    assert ([AScan(p.first)] + p.parts)[1..] == p.parts && ([AScan(q.first)] + q.parts)[1..] == q.parts;
    assert PartContents([AScan(p.first)] + p.parts) == [first] + PartContents(p.parts);
    assert PartContents([AScan(q.first)] + q.parts) == [first] + PartContents(q.parts);
    assert ([first] + PartContents(p.parts))[1..] == PartContents(p.parts);
  }

  lemma {:induction false} HeadKeptOnce(head: seq<Marked>)
    ensures KeptHead(KeptHead(head)) == KeptHead(head)
  {
    hide Keeps;
    if head != [] {
      HeadKeptOnce(head[1..]);
      if Keeps(head[0].marker) { assert ([head[0]] + KeptHead(head[1..]))[1..] == KeptHead(head[1..]); }
    }
  }

  lemma {:induction false} PartsKeptOnce(parts: seq<Part>, end: nat, carry: nat)
    ensures var once, last := KeptParts(parts, end, carry), KeptEnd(parts, end, carry);
            KeptParts(once, last, carry) == once && KeptEnd(once, last, carry) == last
  {
    hide Keeps;
    if parts != [] {
      match parts[0] {
        case ASegment(s) =>
          var next := if Keeps(s.marker) then 0 else carry;
          PartsKeptOnce(parts[1..], end, next);
          var rest := KeptParts(parts[1..], end, next);
          if Keeps(s.marker) { assert ([ASegment(Segment(carry, s.marker, s.payload))] + rest)[1..] == rest; }
        case AScan(s) =>
          var next := FirstFill(parts[1..], end);
          PartsKeptOnce(parts[1..], end, next);
          CarryFirst(parts[1..], end, next);
          var rest := KeptParts(parts[1..], end, next);
          assert ([AScan(Scan(carry, s.header, s.data))] + rest)[1..] == rest;
      }
    }
  }

  /** A stripped picture is stripped already: storing it again changes nothing. */
  lemma {:induction false} StrippingTwiceStripsOnce(p: Picture)
    ensures WithoutMetadata(WithoutMetadata(p)) == WithoutMetadata(p)
    ensures Stripped(Serialize(WithoutMetadata(p))) == Some(Serialize(WithoutMetadata(p)))
  {
    hide Keeps, KeptParts, KeptEnd, KeptHead, Serialize, Stripped;
    var carry := FirstFill(p.parts, p.fill);
    var q := WithoutMetadata(p);
    HeadKeptOnce(p.head);
    PartsKeptOnce(p.parts, p.fill, carry);
    CarryFirst(p.parts, p.fill, carry);
    StripsExactlyTheMetadata(q, []);
    assert Serialize(q) + [] == Serialize(q);
  }

  // ------------------------------------------------------------------ the bytes determine the picture

  /** Two segments that begin the same bytes are the same, fill bytes included. */
  lemma SegmentUnique(s: Marked, t: Marked, x: seq<byte>, y: seq<byte>)
    requires Fill(s.fill) + (Core(s) + x) == Fill(t.fill) + (Core(t) + y)
    ensures s == t && x == y
  {
    hide Fills, MarkerOf, SizeOf, Be16;
    SegmentReads(s, x);
    SegmentReads(t, y);
    SegmentFill(s, x);
    SegmentFill(t, y);
    var n := |Core(s)|;
    assert (Fill(s.fill) + Core(s))[s.fill..] == Core(s) && (Fill(t.fill) + Core(t))[s.fill..] == Core(t);
    if !Alone(s.marker) {
      assert Core(s)[4..] == s.payload && Core(t)[4..] == t.payload;
    }
  }

  lemma SegmentFill(s: Marked, x: seq<byte>)
    ensures var b := Fill(s.fill) + (Core(s) + x); Fills(b) == s.fill && MarkerOf(b) == Some(s.marker)
  {
    hide Fills, MarkerOf, Be16;
    var body := if Alone(s.marker) then [] else Be16(|s.payload| + 2) + s.payload;
    FillsOf(s.fill, s.marker, body + x);
    assert Core(s) == [FF, s.marker] + body;
    Assoc([FF, s.marker], body, x);
  }

  /** A scan header reads back, too. */
  lemma HeaderUnique(s: Scan, t: Scan, x: seq<byte>, y: seq<byte>)
    requires Fill(s.fill) + (ScanHeader(s) + x) == Fill(t.fill) + (ScanHeader(t) + y)
    ensures s.fill == t.fill && s.header == t.header && x == y
  {
    hide Fills, MarkerOf, Framed, Be16;
    FramedOf(s.fill, SOS, s.header, x);
    FramedOf(t.fill, SOS, t.header, y);
    var l, m := Be16(|s.header| + 2), Be16(|t.header| + 2);
    assert (l + s.header)[2..] == s.header && (m + t.header)[2..] == t.header;
  }

  /** What may follow entropy-coded data. */
  predicate Follows(b: seq<byte>) {
    b != [] && b[0] == FF && MarkerOf(b).Some?
    && var m := MarkerOf(b).value; m != 0 && !(0xd0 <= m <= 0xd7)
  }

  lemma UnitBegins(u: Unit, x: seq<byte>)
    ensures var b := UnitBytes(u) + x;
            if u.Coded? then b[0] == u.b
            else if u.StuffedZero? then b[0] == FF && Fills(b) == 0 && MarkerOf(b) == Some(0)
            else b[0] == FF && Fills(b) == u.fill && MarkerOf(b) == Some(u.marker)
    ensures !Follows(UnitBytes(u) + x)
  {
    match u {
      case Coded(c) =>
      case StuffedZero =>
      case Restart(fill, marker) =>
        FillsOf(fill, marker, x);
        Assoc(Fill(fill), [FF, marker], x);
    }
  }

  lemma UnitUnique(u: Unit, v: Unit, x: seq<byte>, y: seq<byte>)
    requires UnitBytes(u) + x == UnitBytes(v) + y
    ensures u == v && x == y
  {
    hide Fills, MarkerOf, Follows;
    UnitBegins(u, x);
    UnitBegins(v, y);
    assert (UnitBytes(u) + x)[|UnitBytes(u)|..] == x && (UnitBytes(v) + y)[|UnitBytes(v)|..] == y;
  }

  lemma {:induction false} DataUnique(a: seq<Unit>, b: seq<Unit>, x: seq<byte>, y: seq<byte>)
    requires DataBytes(a) + x == DataBytes(b) + y && Follows(x) && Follows(y)
    ensures a == b && x == y
  {
    hide Follows, UnitBytes;
    if a == [] || b == [] {
      assert DataBytes([]) + x == x && DataBytes([]) + y == y;
      if a != [] {
        Assoc(UnitBytes(a[0]), DataBytes(a[1..]), x);
        UnitBegins(a[0], DataBytes(a[1..]) + x);
      }
      if b != [] {
        Assoc(UnitBytes(b[0]), DataBytes(b[1..]), y);
        UnitBegins(b[0], DataBytes(b[1..]) + y);
      }
    } else {
      Assoc(UnitBytes(a[0]), DataBytes(a[1..]), x);
      Assoc(UnitBytes(b[0]), DataBytes(b[1..]), y);
      UnitUnique(a[0], b[0], DataBytes(a[1..]) + x, DataBytes(b[1..]) + y);
      DataUnique(a[1..], b[1..], x, y);
      assert a == [a[0]] + a[1..] && b == [b[0]] + b[1..];
    }
  }

  lemma TailFollows(parts: seq<Part>, end: nat)
    ensures var b := TailBytes(parts, end);
            Follows(b) && Fills(b) == FirstFill(parts, end)
    ensures MarkerOf(TailBytes(parts, end)) ==
            Some(if parts == [] then EOI else if parts[0].AScan? then SOS else parts[0].segment.marker)
  {
    hide Fills, MarkerOf, Core, DataBytes;
    var marker, x := TailBegins(parts, end);
    FillsOf(FirstFill(parts, end), marker, x);
    TailMarker(parts, end, marker, x);
  }

  lemma TailMarker(parts: seq<Part>, end: nat, marker: byte, x: seq<byte>)
    requires TailCore(parts, end) == [FF, marker] + x
    ensures marker == if parts == [] then EOI else if parts[0].AScan? then SOS else parts[0].segment.marker
  {
    assert TailCore(parts, end)[1] == marker;
  }

  /** What follows the first scan is determined by its bytes. */
  lemma {:induction false} TailUnique(a: seq<Part>, m: nat, b: seq<Part>, n: nat)
    requires TailBytes(a, m) == TailBytes(b, n)
    ensures a == b && m == n
  {
    hide Fills, MarkerOf, Core, DataBytes, Follows, ScanHeader, TailCore;
    TailFollows(a, m);
    TailFollows(b, n);
    if a != [] {
      assert b != [] && a[0].AScan? == b[0].AScan?;
      RestUnique(a, m, b, n);
      TailUnique(a[1..], m, b[1..], n);
      assert a == [a[0]] + a[1..] && b == [b[0]] + b[1..];
    }
  }

  lemma RestUnique(a: seq<Part>, m: nat, b: seq<Part>, n: nat)
    requires a != [] && b != [] && TailBytes(a, m) == TailBytes(b, n) && a[0].AScan? == b[0].AScan?
    ensures a[0] == b[0] && TailBytes(a[1..], m) == TailBytes(b[1..], n)
  {
    hide Core, DataBytes, ScanHeader, Follows, Fills, MarkerOf;
    if a[0].ASegment? {
      SegmentUnique(a[0].segment, b[0].segment, TailBytes(a[1..], m), TailBytes(b[1..], n));
    } else {
      var s, t := a[0].scan, b[0].scan;
      HeaderUnique(s, t, DataBytes(s.data) + TailBytes(a[1..], m), DataBytes(t.data) + TailBytes(b[1..], n));
      TailFollows(a[1..], m);
      TailFollows(b[1..], n);
      DataUnique(s.data, t.data, TailBytes(a[1..], m), TailBytes(b[1..], n));
    }
  }

  lemma {:induction false} HeadUnique(a: seq<Marked>, b: seq<Marked>, x: seq<byte>, y: seq<byte>)
    requires HeadBytes(a) + x == HeadBytes(b) + y
    requires MarkerOf(x) == MarkerOf(y) == Some(SOS)
    ensures a == b && x == y
  {
    hide MarkerOf, Core;
    if a == [] || b == [] {
      assert HeadBytes([]) + x == x && HeadBytes([]) + y == y;
      if a != [] { HeadBegins(a, x); }
      if b != [] { HeadBegins(b, y); }
    } else {
      HeadBegins(a, x);
      HeadBegins(b, y);
      SegmentUnique(a[0], b[0], HeadBytes(a[1..]) + x, HeadBytes(b[1..]) + y);
      HeadUnique(a[1..], b[1..], x, y);
      assert a == [a[0]] + a[1..] && b == [b[0]] + b[1..];
    }
  }

  lemma HeadBegins(head: seq<Marked>, x: seq<byte>)
    requires head != []
    ensures HeadBytes(head) + x == Fill(head[0].fill) + (Core(head[0]) + (HeadBytes(head[1..]) + x))
    ensures MarkerOf(HeadBytes(head) + x) == Some(head[0].marker) && head[0].marker != SOS
  {
    hide MarkerOf, Core, Fills;
    var s := head[0];
    Assoc(Fill(s.fill) + Core(s), HeadBytes(head[1..]), x);
    Assoc(Fill(s.fill), Core(s), HeadBytes(head[1..]) + x);
    SegmentFill(s, HeadBytes(head[1..]) + x);
  }

  /** The syntax is unambiguous: no two pictures are written as the same bytes. */
  lemma {:induction false} SerializationIsUnique(p: Picture, q: Picture)
    requires Serialize(p) == Serialize(q)
    ensures p == q
  {
    hide MarkerOf, Fills, TailBytes, HeadBytes, Follows;
    var a, b := [AScan(p.first)] + p.parts, [AScan(q.first)] + q.parts;
    var x, y := TailBytes(a, p.fill), TailBytes(b, q.fill);
    assert Serialize(p)[2..] == HeadBytes(p.head) + x && Serialize(q)[2..] == HeadBytes(q.head) + y;
    TailFollows(a, p.fill);
    TailFollows(b, q.fill);
    HeadUnique(p.head, q.head, x, y);
    TailUnique(a, p.fill, b, q.fill);
    assert a[0] == b[0] && a[1..] == p.parts && b[1..] == q.parts;
  }

  /** So stripping gives the bytes of exactly one picture. */
  lemma {:induction false} StripsTo(p: Picture, trailing: seq<byte>, q: Picture)
    ensures Stripped(Serialize(p) + trailing) == Some(Serialize(q)) <==> q == WithoutMetadata(p)
  {
    hide Serialize, Stripped, WithoutMetadata;
    StripsExactlyTheMetadata(p, trailing);
    if Serialize(q) == Serialize(WithoutMetadata(p)) {
      SerializationIsUnique(q, WithoutMetadata(p));
    }
  }

  // ------------------------------------------------------------------ what else goes

  /** The picture with its metadata segments gone and nothing else: every other part keeps the
      fill bytes before it. */
  function OnlyMetadataGone(p: Picture): Picture {
    Picture(KeptHead(p.head), p.first, OtherParts(p.parts), p.fill)
  }

  function OtherParts(parts: seq<Part>): seq<Part> {
    if parts == [] then []
    else if parts[0].ASegment? && !Keeps(parts[0].segment.marker) then OtherParts(parts[1..])
    else [parts[0]] + OtherParts(parts[1..])
  }

  /** Before each part that stays, and before the end, stand as many fill bytes as right behind
      the entropy-coded data before it, or none when a segment that stays is in between. */
  predicate FillsAsDue(parts: seq<Part>, end: nat, carry: nat) {
    if parts == [] then end == carry
    else match parts[0]
      case ASegment(s) =>
        if Keeps(s.marker) then s.fill == carry && FillsAsDue(parts[1..], end, 0)
          else FillsAsDue(parts[1..], end, carry)
      case AScan(s) => s.fill == carry && FillsAsDue(parts[1..], end, FirstFill(parts[1..], end))
  }

  lemma {:induction false} OthersAreKept(parts: seq<Part>, end: nat, carry: nat)
    ensures KeptParts(parts, end, carry) == OtherParts(parts) && KeptEnd(parts, end, carry) == end <==>
              FillsAsDue(parts, end, carry)
  {
    hide Keeps;
    if parts != [] {
      match parts[0] {
        case ASegment(s) =>
          var next := if Keeps(s.marker) then 0 else carry;
          OthersAreKept(parts[1..], end, next);
          if Keeps(s.marker) { SameBehind(ASegment(Segment(carry, s.marker, s.payload)), parts[0],
                                          KeptParts(parts[1..], end, 0), OtherParts(parts[1..])); }
        case AScan(s) =>
          var next := FirstFill(parts[1..], end);
          OthersAreKept(parts[1..], end, next);
          SameBehind(AScan(Scan(carry, s.header, s.data)), parts[0], KeptParts(parts[1..], end, next),
                     OtherParts(parts[1..]));
      }
    }
  }

  lemma SameBehind(a: Part, b: Part, x: seq<Part>, y: seq<Part>)
    ensures [a] + x == [b] + y <==> a == b && x == y
  {
    assert ([a] + x)[0] == a && ([b] + y)[0] == b && ([a] + x)[1..] == x && ([b] + y)[1..] == y;
  }

  /** When only metadata is removed: the bytes that stripping gives are those of the picture with
      its metadata segments gone and nothing else exactly when no fill byte precedes the first
      scan and those behind it are as due. */
  lemma {:induction false} OnlyMetadataIsRemovedIff(p: Picture, trailing: seq<byte>)
    ensures Stripped(Serialize(p) + trailing) == Some(Serialize(OnlyMetadataGone(p)))
            <==> p.first.fill == 0 && FillsAsDue(p.parts, p.fill, FirstFill(p.parts, p.fill))
  {
    hide Serialize, Stripped, KeptHead, KeptParts, KeptEnd, OtherParts, FillsAsDue;
    StripsTo(p, trailing, OnlyMetadataGone(p));
    OthersAreKept(p.parts, p.fill, FirstFill(p.parts, p.fill));
  }

  /** No metadata, and fill bytes only right behind entropy-coded data, where `carry` of them
      are due. */
  predicate TidyParts(parts: seq<Part>, end: nat, carry: nat) {
    FirstFill(parts, end) == carry
    && (parts != [] ==>
          match parts[0]
          case ASegment(s) => Keeps(s.marker) && TidyParts(parts[1..], end, 0)
          case AScan(s) => TidyParts(parts[1..], end, FirstFill(parts[1..], end)))
  }

  predicate Tidy(p: Picture) {
    p.first.fill == 0 && (forall s :: s in p.head ==> Keeps(s.marker))
      && TidyParts(p.parts, p.fill, FirstFill(p.parts, p.fill))
  }

  lemma {:induction false} HeadUnchanged(head: seq<Marked>)
    ensures |KeptHead(head)| <= |head|
    ensures KeptHead(head) == head <==> forall s :: s in head ==> Keeps(s.marker)
  {
    hide Keeps;
    if head != [] {
      HeadUnchanged(head[1..]);
      assert head == [head[0]] + head[1..];
    }
  }

  lemma {:induction false} PartsUnchanged(parts: seq<Part>, end: nat, carry: nat)
    ensures |KeptParts(parts, end, carry)| <= |parts|
    ensures KeptParts(parts, end, carry) == parts && KeptEnd(parts, end, carry) == end <==> TidyParts(parts, end, carry)
  {
    hide Keeps;
    if parts != [] {
      var next := match parts[0] case ASegment(s) => (if Keeps(s.marker) then 0 else carry) case AScan(_) => FirstFill(parts[1..], end);
      PartsUnchanged(parts[1..], end, next);
      assert parts == [parts[0]] + parts[1..];
    }
  }

  /** Stripping leaves a picture's bytes as they are exactly when it holds no metadata and no fill
      byte before the scan's marker or between two segments behind it. */
  lemma {:induction false} UnchangedIffTidy(p: Picture)
    ensures WithoutMetadata(p) == p <==> Tidy(p)
    ensures Stripped(Serialize(p)) == Some(Serialize(p)) <==> Tidy(p)
  {
    hide Keeps, KeptHead, KeptParts, KeptEnd, TidyParts, Serialize, Stripped;
    StripsTo(p, [], p);
    assert Serialize(p) + [] == Serialize(p);
    HeadUnchanged(p.head);
    PartsUnchanged(p.parts, p.fill, FirstFill(p.parts, p.fill));
  }

  /** A picture without metadata that stripping shortens: the fill byte before its scan goes. */
  lemma {:induction false} FillBytesGo()
    ensures var p := Picture([], Scan(1, [], []), [], 0);
            NoMetadata(Contents(p)) == Contents(p) && |Serialize(WithoutMetadata(p))| == |Serialize(p)| - 1
  {
    var p := Picture([], Scan(1, [], []), [], 0);
    var q := WithoutMetadata(p);
    var c := [ScanContent([], [])];
    assert ([AScan(p.first)] + p.parts)[1..] == [] && ([AScan(q.first)] + q.parts)[1..] == [];
    assert q == Picture([], Scan(0, [], []), [], 0);
    assert PartContents([]) == [] && c[1..] == [];
    assert Contents(p) == c;
    assert NoMetadata([]) == [];
    assert TailCore([AScan(p.first)] + p.parts, 0) == TailCore([AScan(q.first)] + q.parts, 0);
  }
}
