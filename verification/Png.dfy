/** PNG metadata removal (image.rs): a walk over the chunks of section 5.3 of the PNG
    specification that keeps every chunk but the metadata ones, and nothing behind IEND. */
module Png {
  import opened Contracts
  import opened Bytes

  const PNG_SIGNATURE: seq<byte> := [0x89, 0x50, 0x4e, 0x47, 0x0d, 0x0a, 0x1a, 0x0a]
  const IHDR: seq<byte> := [0x49, 0x48, 0x44, 0x52]
  const IEND: seq<byte> := [0x49, 0x45, 0x4e, 0x44]
  const TEXT: seq<byte> := [0x74, 0x45, 0x58, 0x74]
  const ZTXT: seq<byte> := [0x7a, 0x54, 0x58, 0x74]
  const ITXT: seq<byte> := [0x69, 0x54, 0x58, 0x74]
  const EXIF: seq<byte> := [0x65, 0x58, 0x49, 0x66]
  const TIME: seq<byte> := [0x74, 0x49, 0x4d, 0x45]

  datatype PngError = TruncatedChunk

  predicate IsMetadata(kind: seq<byte>) {
    kind in [TEXT, ZTXT, ITXT, EXIF, TIME]
  }

  // ------------------------------------------------------------------ the chunk layout

  datatype RawChunk = Chunk(kind: seq<byte>, data: seq<byte>, crc: seq<byte>)

  type Chunk = c: RawChunk | |c.kind| == 4 && |c.crc| == 4 && |c.data| < TWO_32
    witness Chunk([0, 0, 0, 0], [], [0, 0, 0, 0])

  /** Length, type, data, CRC. */
  function ChunkBytes(c: Chunk): (b: seq<byte>)
    ensures |b| == 12 + |c.data|
  {
    Be32(|c.data|) + c.kind + c.data + c.crc
  }

  function Serialize(chunks: seq<Chunk>): seq<byte> {
    if chunks == [] then [] else ChunkBytes(chunks[0]) + Serialize(chunks[1..])
  }

  /** IEND is the last chunk, and only the last. */
  predicate Ended(chunks: seq<Chunk>) {
    chunks != [] && forall i :: 0 <= i < |chunks| ==> (chunks[i].kind == IEND <==> i == |chunks| - 1)
  }

  /** Behind the signature the bytes begin with these chunks, to IEND. */
  ghost predicate IsPng(bytes: seq<byte>, chunks: seq<Chunk>) {
    |bytes| >= 8 && Ended(chunks) && Serialize(chunks) <= bytes[8..]
  }

  function Kept(chunks: seq<Chunk>): seq<Chunk> {
    if chunks == [] then []
    else if IsMetadata(chunks[0].kind) then Kept(chunks[1..])
    else [chunks[0]] + Kept(chunks[1..])
  }

  ghost predicate IsStripped(bytes: seq<byte>, out: seq<byte>) {
    exists chunks :: IsPng(bytes, chunks) && out == PNG_SIGNATURE + Serialize(Kept(chunks))
  }

  // ------------------------------------------------------------------ small facts

  lemma Unfold(chunks: seq<Chunk>, x: seq<byte>)
    requires chunks != []
    ensures Serialize(chunks) + x == ChunkBytes(chunks[0]) + (Serialize(chunks[1..]) + x)
  {
    hide ChunkBytes;
    Assoc(ChunkBytes(chunks[0]), Serialize(chunks[1..]), x);
  }

  lemma {:induction false} SerializeAppend(chunks: seq<Chunk>, c: Chunk)
    ensures Serialize(chunks + [c]) == Serialize(chunks) + ChunkBytes(c)
  {
    hide ChunkBytes;
    if chunks == [] {
      assert [c][1..] == [];
    } else {
      SerializeAppend(chunks[1..], c);
      assert (chunks + [c])[1..] == chunks[1..] + [c];
    }
  }

  lemma {:induction false} KeptAppend(chunks: seq<Chunk>, c: Chunk)
    ensures Kept(chunks + [c]) == if IsMetadata(c.kind) then Kept(chunks) else Kept(chunks) + [c]
  {
    hide IsMetadata;
    if chunks == [] {
      assert [c][1..] == [];
    } else {
      KeptAppend(chunks[1..], c);
      assert (chunks + [c])[1..] == chunks[1..] + [c];
    }
  }

  /** A chunk says how long it is: what follows it does not matter. */
  lemma {:induction false} ChunkIsPrefixFree(a: Chunk, b: Chunk, x: seq<byte>, y: seq<byte>)
    requires ChunkBytes(a) + x == ChunkBytes(b) + y
    ensures a == b && x == y
  {
    var bytes := ChunkBytes(a) + x;
    assert bytes[0..4] == Be32(|a.data|);
    assert bytes[0..4] == Be32(|b.data|) by { assert bytes == ChunkBytes(b) + y; }
    ReadsBe32(|a.data|, bytes, 0);
    ReadsBe32(|b.data|, bytes, 0);
    var n := |a.data|;
    assert a.kind == bytes[4..8] == b.kind;
    assert a.data == bytes[8..8 + n] == b.data;
    assert a.crc == bytes[8 + n..12 + n] == b.crc;
    assert x == bytes[12 + n..] == y;
  }

  /** One input has at most one such reading. */
  lemma {:induction false} OneReading(a: seq<Chunk>, b: seq<Chunk>, x: seq<byte>, y: seq<byte>)
    requires Ended(a) && Ended(b) && Serialize(a) + x == Serialize(b) + y
    ensures a == b
  {
    hide ChunkBytes, Serialize;
    Unfold(a, x);
    Unfold(b, y);
    ChunkIsPrefixFree(a[0], b[0], Serialize(a[1..]) + x, Serialize(b[1..]) + y);
    if |a| > 1 {
      assert Ended(a[1..]) && Ended(b[1..]);
      OneReading(a[1..], b[1..], x, y);
      assert a == [a[0]] + a[1..] && b == [b[0]] + b[1..];
    } else {
      assert a[0].kind == IEND;
    }
  }

  // ------------------------------------------------------------------ the walk

  /** The chunk that begins at `at`, when one does. */
  function ChunkAt(bytes: seq<byte>, at: nat): (c: Option<Chunk>)
    ensures c.Some? <==> ReadBe32(bytes, at).Some? && at + 12 + ReadBe32(bytes, at).value <= |bytes|
    ensures c.Some? ==>
              at + 12 + |c.value.data| <= |bytes| && ChunkBytes(c.value) == bytes[at..at + 12 + |c.value.data|]
    ensures c.Some? ==> |c.value.data| == ReadBe32(bytes, at).value && c.value.kind == bytes[at + 4..at + 8]
  {
    var len := ReadBe32(bytes, at);
    if len.None? || at + 12 + len.value > |bytes| then None
    else
      var n := len.value;
      var c: Chunk := Chunk(bytes[at + 4..at + 8], bytes[at + 8..at + 8 + n], bytes[at + 8 + n..at + 12 + n]);
      WritesBe32(bytes, at);
      FourParts(bytes, at, at + 4, at + 8, at + 8 + n, at + 12 + n);
      Some(c)
  }

  lemma FourParts(bytes: seq<byte>, a: nat, b: nat, c: nat, d: nat, e: nat)
    requires a <= b <= c <= d <= e <= |bytes|
    ensures bytes[a..b] + bytes[b..c] + bytes[c..d] + bytes[d..e] == bytes[a..e]
  {
    assert bytes[a..b] + bytes[b..c] == bytes[a..c];
    assert bytes[a..c] + bytes[c..d] == bytes[a..d];
    assert bytes[a..d] + bytes[d..e] == bytes[a..e];
  }

  /** Nothing but `read` can precede `at`; without a chunk there, the bytes are no PNG. */
  lemma {:induction false} NoChunkNoPng(bytes: seq<byte>, read: seq<Chunk>, at: nat, chunks: seq<Chunk>)
    requires 8 <= at <= |bytes| && bytes[8..at] == Serialize(read)
    requires forall i :: 0 <= i < |read| ==> read[i].kind != IEND
    requires ChunkAt(bytes, at).None?
    ensures !IsPng(bytes, chunks)
  {
    if IsPng(bytes, chunks) {
      var rest := bytes[8 + |Serialize(chunks)|..];
      assert bytes[8..] == Serialize(chunks) + rest;
      assert bytes[8..] == Serialize(read) + bytes[at..];
      NextIsChunk(read, bytes[at..], chunks, rest);
      var c, tail: seq<byte> :| bytes[at..] == ChunkBytes(c) + tail;
      ChunkReads(bytes, at, c, tail);
    }
  }

  lemma ChunkReads(bytes: seq<byte>, at: nat, c: Chunk, tail: seq<byte>)
    requires at <= |bytes| && bytes[at..] == ChunkBytes(c) + tail
    ensures ChunkAt(bytes, at).Some?
  {
    assert bytes[at..at + 4] == bytes[at..][..4] == Be32(|c.data|);
    ReadsBe32(|c.data|, bytes, at);
  }

  /** Behind chunks that are not IEND, a PNG goes on with another chunk. */
  lemma {:induction false} NextIsChunk(read: seq<Chunk>, x: seq<byte>, chunks: seq<Chunk>, y: seq<byte>)
    requires Ended(chunks) && Serialize(read) + x == Serialize(chunks) + y
    requires forall i :: 0 <= i < |read| ==> read[i].kind != IEND
    ensures exists c: Chunk, tail: seq<byte> :: x == ChunkBytes(c) + tail
  {
    hide ChunkBytes;
    Unfold(chunks, y);
    if read == [] {
      assert x == Serialize(read) + x;
    } else {
      hide Serialize;
      Unfold(read, x);
      ChunkIsPrefixFree(read[0], chunks[0], Serialize(read[1..]) + x, Serialize(chunks[1..]) + y);
      assert |chunks| > 1 by { assert chunks[0].kind != IEND; }
      assert Ended(chunks[1..]);
      NextIsChunk(read[1..], x, chunks[1..], y);
    }
  }

  /** `strip_png`. */
  method StripPng(bytes: seq<byte>) returns (r: Result<seq<byte>, PngError>)
    ensures r.Ok? ==> IsStripped(bytes, r.value)
    ensures r.Err? ==> forall chunks :: !IsPng(bytes, chunks)
  {
    hide ChunkBytes, IsMetadata, Serialize, Kept;
    var out := PNG_SIGNATURE;
    var at := 8;
    ghost var read: seq<Chunk> := [];
    Nothing(bytes);
    while true
      invariant 8 <= at && (at <= |bytes| ==> bytes[8..at] == Serialize(read)) && (at > |bytes| ==> |bytes| < 8)
      invariant forall i :: 0 <= i < |read| ==> read[i].kind != IEND
      invariant out == PNG_SIGNATURE + Serialize(Kept(read))
      decreases |bytes| - at
    {
      var len := ReadBe32(bytes, at);
      if len.None? || at + 12 + len.value > |bytes| {
        if |bytes| >= 8 {
          forall chunks ensures !IsPng(bytes, chunks) {
            NoChunkNoPng(bytes, read, at, chunks);
          }
        }
        return Err(TruncatedChunk);
      }
      var end := at + 12 + len.value;
      var kind := bytes[at + 4..at + 8];
      ghost var c := ChunkAt(bytes, at).value;
      SerializeAppend(read, c);
      KeptAppend(read, c);
      if !IsMetadata(kind) {
        Assoc(PNG_SIGNATURE, Serialize(Kept(read)), bytes[at..end]);
        out := out + bytes[at..end];
        SerializeAppend(Kept(read), c);
      }
      assert bytes[8..end] == bytes[8..at] + bytes[at..end];
      read := read + [c];
      at := end;
      if kind == IEND {
        assert Serialize(read) <= bytes[8..];
        assert IsPng(bytes, read);
        return Ok(out);
      }
    }
  }

  lemma Nothing(bytes: seq<byte>)
    ensures Serialize([]) == [] && Kept([]) == []
    ensures |bytes| >= 8 ==> bytes[8..8] == []
  {
  }

  // ------------------------------------------------------------------ what stripping gives

  /** Whatever stands in for the signature and whatever trails, stripping a serialized PNG
      gives the serialization of its chunks without the metadata. */
  lemma {:induction false} StripsExactlyTheMetadata(lead: seq<byte>, chunks: seq<Chunk>, trailing: seq<byte>,
                                                    out: seq<byte>)
    requires |lead| == 8 && Ended(chunks) && IsStripped(lead + Serialize(chunks) + trailing, out)
    ensures out == PNG_SIGNATURE + Serialize(Kept(chunks))
  {
    hide Serialize, Kept, Ended;
    var bytes := lead + Serialize(chunks) + trailing;
    var read :| IsPng(bytes, read) && out == PNG_SIGNATURE + Serialize(Kept(read));
    var rest := bytes[8 + |Serialize(read)|..];
    assert bytes[8..] == Serialize(read) + rest == Serialize(chunks) + trailing;
    OneReading(read, chunks, rest, trailing);
  }

  lemma {:induction false} KeptFacts(chunks: seq<Chunk>)
    ensures |Serialize(Kept(chunks))| <= |Serialize(chunks)|
    ensures Kept(Kept(chunks)) == Kept(chunks)
    ensures forall c :: c in Kept(chunks) <==> c in chunks && !IsMetadata(c.kind)
    ensures Ended(chunks) ==> Ended(Kept(chunks))
  {
    hide IsMetadata;
    if chunks != [] {
      KeptFacts(chunks[1..]);
      var c, rest := chunks[0], chunks[1..];
      assert chunks == [c] + rest;
      if !IsMetadata(c.kind) {
        assert Kept(chunks) == [c] + Kept(rest);
        assert ([c] + Kept(rest))[1..] == Kept(rest);
      }
      if Ended(chunks) {
        EndIsNoMetadata();
        if rest != [] {
          assert Ended(rest);
          EndedCons(c, Kept(rest));
        }
      }
    }
  }

  lemma EndIsNoMetadata()
    ensures !IsMetadata(IEND) && !IsMetadata(IHDR)
  {
    assert IEND[0] == 0x49 && IHDR[0] == 0x49 && TEXT[0] != 0x49 && ZTXT[0] != 0x49 && ITXT[0] != 0x49
             && EXIF[0] != 0x49 && TIME[0] != 0x49;
  }

  lemma EndedCons(c: Chunk, rest: seq<Chunk>)
    requires Ended(rest) && c.kind != IEND
    ensures Ended([c] + rest)
  {
  }

  /** The result is never longer, holds no metadata chunk, and stripping it again changes
      nothing. */
  lemma {:induction false} StrippedIsClean(bytes: seq<byte>, out: seq<byte>)
    requires IsStripped(bytes, out)
    ensures |out| <= |bytes| && IsStripped(out, out)
    ensures exists chunks: seq<Chunk> :: IsPng(out, chunks) && out == PNG_SIGNATURE + Serialize(chunks)
                             && forall c :: c in chunks ==> !IsMetadata(c.kind)
  {
    hide Serialize, Kept, Ended, IsMetadata;
    var chunks :| IsPng(bytes, chunks) && out == PNG_SIGNATURE + Serialize(Kept(chunks));
    KeptFacts(chunks);
    assert out[8..] == Serialize(Kept(chunks));
    assert IsPng(out, Kept(chunks));
  }

  // ------------------------------------------------------------------ dimensions

  /** `png_dimensions`: IHDR first, 13 bytes long. */
  function PngDimensions(bytes: seq<byte>): Option<(nat, nat)> {
    if ReadBe32(bytes, 8) == Some(13) && 16 <= |bytes| && bytes[12..16] == IHDR && 24 <= |bytes| then
      Some((ReadBe32(bytes, 16).value, ReadBe32(bytes, 20).value))
    else None
  }

  /** The stored image measures what the given one did. */
  lemma {:induction false} StripKeepsDimensions(bytes: seq<byte>, out: seq<byte>)
    requires IsStripped(bytes, out) && PngDimensions(bytes).Some?
    ensures PngDimensions(out) == PngDimensions(bytes)
  {
    hide Kept, IsMetadata, ChunkBytes, PngDimensions;
    var chunks :| IsPng(bytes, chunks) && out == PNG_SIGNATURE + Serialize(Kept(chunks));
    assert chunks != [] by { assert Ended(chunks); }
    var c := chunks[0];
    FirstChunk(bytes, chunks);
    EndIsNoMetadata();
    KeptFirst(chunks);
    assert Serialize(Kept(chunks)) == ChunkBytes(c) + Serialize(Kept(chunks)[1..]);
    assert out[8..8 + |ChunkBytes(c)|] == ChunkBytes(c);
    SameHeader(bytes, out, 8 + |ChunkBytes(c)|);
  }

  lemma SameHeader(bytes: seq<byte>, out: seq<byte>, n: nat)
    requires 24 <= n <= |bytes| && n <= |out| && bytes[8..n] == out[8..n]
    ensures PngDimensions(out) == PngDimensions(bytes)
  {
    forall i | 8 <= i < n ensures out[i] == bytes[i] {
      assert out[i] == out[8..n][i - 8] && bytes[i] == bytes[8..n][i - 8];
    }
    assert out[12..16] == bytes[12..16];
    assert ReadBe32(out, 8) == ReadBe32(bytes, 8) && ReadBe32(out, 16) == ReadBe32(bytes, 16)
             && ReadBe32(out, 20) == ReadBe32(bytes, 20);
  }

  lemma KeptFirst(chunks: seq<Chunk>)
    requires chunks != [] && !IsMetadata(chunks[0].kind)
    ensures Kept(chunks) != [] && Kept(chunks)[0] == chunks[0]
  {
  }

  lemma FirstChunk(bytes: seq<byte>, chunks: seq<Chunk>)
    requires IsPng(bytes, chunks) && chunks != [] && PngDimensions(bytes).Some?
    ensures |chunks[0].data| == 13 && chunks[0].kind == IHDR
    ensures 8 + |ChunkBytes(chunks[0])| <= |bytes| && bytes[8..8 + |ChunkBytes(chunks[0])|] == ChunkBytes(chunks[0])
  {
    hide Be32;
    var c := chunks[0];
    var n := |ChunkBytes(c)|;
    var all := Serialize(chunks);
    assert bytes[8..][..|all|] == all;
    assert bytes[8..8 + n] == bytes[8..][..n] == all[..n] == ChunkBytes(c);
    assert bytes[8..12] == bytes[8..8 + n][..4] == Be32(|c.data|);
    ReadsBe32(|c.data|, bytes, 8);
    assert bytes[12..16] == bytes[8..8 + n][4..8] == c.kind;
  }
}
