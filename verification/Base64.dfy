/** Base64 as images travel (attachment.rs): sections 3.5 and 4 of RFC 4648. */
module Base64 {
  import opened Contracts
  import opened Bytes

  const PAD: byte := 0x3d

  type Sextet = v: int | 0 <= v < 64 witness 0

  /** The alphabet, by index. */
  function Letter(v: Sextet): byte {
    if v < 26 then 0x41 + v
    else if v < 52 then 0x61 + (v - 26)
    else if v < 62 then 0x30 + (v - 52)
    else if v == 62 then 0x2b else 0x2f
  }

  function Value(letter: byte): Option<Sextet> {
    if 0x41 <= letter <= 0x5a then Some(letter - 0x41)
    else if 0x61 <= letter <= 0x7a then Some(letter - 0x61 + 26)
    else if 0x30 <= letter <= 0x39 then Some(letter - 0x30 + 52)
    else if letter == 0x2b then Some(62)
    else if letter == 0x2f then Some(63)
    else None
  }

  lemma LettersAreValues(v: Sextet, letter: byte)
    ensures Value(letter) == Some(v) <==> Letter(v) == letter
    ensures Letter(v) != PAD && Value(PAD) == None
  {
  }

  // ------------------------------------------------------------------ encoding

  /** Three bytes as 24 bits, zeroes for the missing ones. */
  function Bits(chunk: seq<byte>): int
    requires 1 <= |chunk| <= 3
  {
    chunk[0] as int * 0x1_0000
      + (if |chunk| > 1 then chunk[1] as int * 0x100 else 0) + (if |chunk| > 2 then chunk[2] as int else 0)
  }

  function SextetOf(n: int, index: nat): Sextet
    requires index < 4
  {
    (if index == 0 then n / 0x4_0000 else if index == 1 then n / 0x1000 else if index == 2 then n / 0x40 else n) % 64
  }

  /** One letter more than there are bytes. */
  function ChunkLetters(chunk: seq<byte>): (letters: seq<byte>)
    requires 1 <= |chunk| <= 3
    ensures |letters| == |chunk| + 1
  {
    seq(|chunk| + 1, i requires 0 <= i <= |chunk| => Letter(SextetOf(Bits(chunk), i)))
  }

  function Padding(chunk: seq<byte>): (pad: seq<byte>)
    requires 1 <= |chunk| <= 3
    ensures |pad| == 3 - |chunk| && forall i :: 0 <= i < |pad| ==> pad[i] == PAD
  {
    if |chunk| == 1 then [PAD, PAD] else if |chunk| == 2 then [PAD] else []
  }

  function Head(bytes: seq<byte>): (chunk: seq<byte>)
    requires bytes != []
    ensures 1 <= |chunk| <= 3 && chunk <= bytes && (|chunk| < 3 ==> chunk == bytes)
  {
    if |bytes| < 3 then bytes else bytes[..3]
  }

  /** The text of `bytes`, with its padding or without. */
  function Encoded(bytes: seq<byte>, padded: bool): seq<byte> {
    if bytes == [] then []
    else
      ChunkLetters(Head(bytes))
        + (if padded then Padding(Head(bytes)) else []) + Encoded(bytes[|Head(bytes)|..], padded)
  }

  lemma HeadOf(first: seq<byte>, rest: seq<byte>)
    requires 1 <= |first| <= 3 && (|first| < 3 ==> rest == [])
    ensures Head(first + rest) == first && (first + rest)[|first|..] == rest
  {
  }

  lemma PaddedUnfolds(first: seq<byte>, rest: seq<byte>)
    requires 1 <= |first| <= 3 && (|first| < 3 ==> rest == [])
    ensures Encoded(first + rest, true) == ChunkLetters(first) + Padding(first) + Encoded(rest, true)
  {
    hide ChunkLetters, Padding;
    HeadOf(first, rest);
  }

  lemma {:induction false} EncodedAppend(bytes: seq<byte>, chunk: seq<byte>)
    requires |bytes| % 3 == 0 && 1 <= |chunk| <= 3
    ensures Encoded(bytes + chunk, true) == Encoded(bytes, true) + (ChunkLetters(chunk) + Padding(chunk))
  {
    hide ChunkLetters, Padding, Encoded;
    var last := ChunkLetters(chunk) + Padding(chunk);
    NothingEncoded();
    if bytes == [] {
      PaddedUnfolds(chunk, []);
      assert bytes + chunk == chunk + [] && [] + last == last && last + [] == last;
    } else {
      var first, rest := bytes[..3], bytes[3..];
      EncodedAppend(rest, chunk);
      assert bytes == first + rest;
      Assoc(first, rest, chunk);
      assert |first| == 3;
      PaddedUnfolds(first, rest);
      PaddedUnfolds(first, rest + chunk);
      Assoc(ChunkLetters(first) + Padding(first), Encoded(rest, true), last);
    }
  }

  /** `base64`. */
  method Encode(bytes: seq<byte>) returns (out: seq<byte>)
    ensures out == Encoded(bytes, true)
  {
    hide Encoded, ChunkLetters;
    out := [];
    var at := 0;
    NothingEncoded();
    while at < |bytes|
      invariant 0 <= at <= |bytes| && (at % 3 == 0 || at == |bytes|)
      invariant out == Encoded(bytes[..at], true)
    {
      var end := if at + 3 <= |bytes| then at + 3 else |bytes|;
      var chunk := bytes[at..end];
      var letters := EncodeChunk(chunk);
      EncodedAppend(bytes[..at], chunk);
      assert bytes[..at] + chunk == bytes[..end];
      out := out + letters;
      at := end;
    }
    assert bytes[..at] == bytes;
  }

  method EncodeChunk(chunk: seq<byte>) returns (out: seq<byte>)
    requires 1 <= |chunk| <= 3
    ensures out == ChunkLetters(chunk) + Padding(chunk)
  {
    var n := Bits(chunk);
    out := [];
    for index := 0 to 4
      invariant |out| == index
      invariant forall i :: 0 <= i < index ==> out[i] == if i <= |chunk| then Letter(SextetOf(n, i)) else PAD
    {
      out := out + [if index <= |chunk| then Letter(SextetOf(n, index)) else PAD];
    }
  }

  lemma NothingEncoded()
    ensures Encoded([], true) == [] == Encoded([], false)
  {
  }

  // ------------------------------------------------------------------ decoding

  /** The bits of up to four letters, the first at the top. */
  function Gathered(chunk: seq<byte>, upTo: nat): Option<int>
    requires upTo <= |chunk| <= 4
  {
    if upTo == 0 then Some(0)
    else
      var before, v := Gathered(chunk, upTo - 1), Value(chunk[upTo - 1]);
      if before.None? || v.None? then None else Some(before.value + v.value * Weight(upTo - 1))
  }

  function Weight(index: nat): int {
    if index == 0 then 0x4_0000 else if index == 1 then 0x1000 else if index == 2 then 0x40 else 1
  }

  /** Two to four letters: all but the last letter count a byte, and the bits below are zero. */
  function DecodedChunk(chunk: seq<byte>): Option<seq<byte>>
    requires 2 <= |chunk| <= 4
  {
    var n := Gathered(chunk, |chunk|);
    if n.None? then None
    else if n.value % Below(|chunk| - 1) != 0 then None
    else Some(TopBytes(n.value, |chunk| - 1))
  }

  /** The bits below the first `kept` bytes, as a modulus. */
  function Below(kept: nat): int
    ensures Below(kept) > 0
  {
    if kept == 1 then 0x1_0000 else if kept == 2 then 0x100 else 1
  }

  function TopBytes(n: int, kept: nat): (bytes: seq<byte>)
    ensures |bytes| == kept
  {
    seq(kept, i requires 0 <= i => (if i == 0 then n / 0x1_0000 else if i == 1 then n / 0x100 else n) % 256)
  }

  function Front(text: seq<byte>): (chunk: seq<byte>)
    requires text != []
    ensures 1 <= |chunk| <= 4 && chunk <= text && (|chunk| < 4 ==> chunk == text)
  {
    if |text| < 4 then text else text[..4]
  }

  function DecodedLetters(text: seq<byte>): Option<seq<byte>>
    requires |text| % 4 != 1
    decreases |text|
  {
    if text == [] then Some([])
    else
      var first, rest := DecodedChunk(Front(text)), DecodedLetters(text[|Front(text)|..]);
      if first.None? || rest.None? then None else Some(first.value + rest.value)
  }

  predicate EndsWith(text: seq<byte>, suffix: seq<byte>) {
    |suffix| <= |text| && text[|text| - |suffix|..] == suffix
  }

  /** The text without its padding. */
  function Stripped(text: seq<byte>): (letters: seq<byte>)
    ensures letters <= text && |letters| >= |text| - 2
  {
    if EndsWith(text, [PAD, PAD]) then text[..|text| - 2]
    else if EndsWith(text, [PAD]) then text[..|text| - 1]
    else text
  }

  function Decoded(text: seq<byte>): Option<seq<byte>> {
    var letters := Stripped(text);
    if |letters| % 4 == 1 || (|letters| != |text| && |text| % 4 != 0) then None
    else DecodedLetters(letters)
  }

  /** `ImageData::decode`. */
  method Decode(text: seq<byte>) returns (r: Option<seq<byte>>)
    ensures r == Decoded(text)
  {
    hide DecodedLetters, Stripped;
    var letters := Stripped(text);
    if |letters| % 4 == 1 || (|letters| != |text| && |text| % 4 != 0) {
      return None;
    }
    r := DecodeLetters(letters);
  }

  /** Between two chunks of four, what is left of `length` letters can still be read. */
  predicate AtChunk(at: nat, length: nat) {
    at <= length && (length - at) % 4 != 1
  }

  /** The loop over the chunks. */
  method DecodeLetters(letters: seq<byte>) returns (r: Option<seq<byte>>)
    requires |letters| % 4 != 1
    ensures r == DecodedLetters(letters)
  {
    var out: seq<byte> := [];
    var at := 0;
    assert AtChunk(at, |letters|);
    hide DecodedLetters, DecodedChunk, Behind, AtChunk;
    NothingDecoded(DecodedLetters(letters));
    assert letters[0..] == letters;
    while at < |letters|
      invariant 0 <= at <= |letters| && AtChunk(at, |letters|)
      invariant DecodedLetters(letters) == Behind(out, DecodedLetters(letters[at..]))
    {
      var end := if at + 4 <= |letters| then at + 4 else |letters|;
      LettersUnfold(letters, at, end, out);
      var bytes := DecodeChunk(letters[at..end]);
      if bytes.None? {
        return None;
      }
      out := out + bytes.value;
      at := end;
    }
    NothingDecoded(Some(out));
    assert letters[at..] == [];
    return Some(out);
  }

  function Behind(out: seq<byte>, rest: Option<seq<byte>>): Option<seq<byte>> {
    if rest.Some? then Some(out + rest.value) else None
  }

  lemma NothingDecoded(r: Option<seq<byte>>)
    ensures DecodedLetters([]) == Some([]) && Behind([], r) == r
    ensures r.Some? ==> Behind(r.value, Some([])) == r
  {
    if r.Some? { assert [] + r.value == r.value && r.value + [] == r.value; }
  }

  lemma LettersUnfold(letters: seq<byte>, at: nat, end: nat, out: seq<byte>)
    requires at < |letters| && AtChunk(at, |letters|)
    requires end == if at + 4 <= |letters| then at + 4 else |letters|
    ensures 2 <= end - at <= 4 && AtChunk(end, |letters|)
    ensures Behind(out, DecodedLetters(letters[at..])) ==
            if DecodedChunk(letters[at..end]).None? then None
            else Behind(out + DecodedChunk(letters[at..end]).value, DecodedLetters(letters[end..]))
  {
    hide DecodedChunk;
    var rest := letters[at..];
    assert Front(rest) == letters[at..end] && rest[|Front(rest)|..] == letters[end..];
    var first, more := DecodedChunk(letters[at..end]), DecodedLetters(letters[end..]);
    if first.Some? && more.Some? { Assoc(out, first.value, more.value); }
  }

  method DecodeChunk(chunk: seq<byte>) returns (r: Option<seq<byte>>)
    requires 2 <= |chunk| <= 4
    ensures r == DecodedChunk(chunk)
  {
    var n := 0;
    for index := 0 to |chunk|
      invariant Gathered(chunk, index) == Some(n)
    {
      var v := Value(chunk[index]);
      if v.None? {
        NoneStays(chunk, index + 1);
        return None;
      }
      n := n + v.value * Weight(index);
    }
    if n % Below(|chunk| - 1) != 0 {
      return None;
    }
    return Some(TopBytes(n, |chunk| - 1));
  }

  lemma {:induction false} NoneStays(chunk: seq<byte>, upTo: nat)
    requires upTo <= |chunk| <= 4 && Gathered(chunk, upTo).None?
    ensures Gathered(chunk, |chunk|).None?
    decreases |chunk| - upTo
  {
    if upTo < |chunk| {
      NoneStays(chunk, upTo + 1);
    }
  }

  // ------------------------------------------------------------------ what is accepted

  /** What two to four letters with these values gather to. */
  lemma GatherValues(letters: seq<byte>, v: seq<int>)
    requires 2 <= |letters| <= 4 && |v| == 4
    requires forall i :: 0 <= i < 4 ==> 0 <= v[i] < 64
    requires forall i :: 0 <= i < |letters| ==> Value(letters[i]).Some? && Value(letters[i]).value == v[i]
    requires forall i :: |letters| <= i < 4 ==> v[i] == 0
    ensures Gathered(letters, |letters|) == Some(v[0] * 0x4_0000 + v[1] * 0x1000 + v[2] * 0x40 + v[3])
  {
    hide Value;
    assert Gathered(letters, 0) == Some(0);
    assert Gathered(letters, 1) == Some(v[0] * 0x4_0000);
    assert Gathered(letters, 2) == Some(v[0] * 0x4_0000 + v[1] * 0x1000);
    if |letters| >= 3 {
      assert Gathered(letters, 3) == Some(v[0] * 0x4_0000 + v[1] * 0x1000 + v[2] * 0x40);
    }
  }

  /** The bits of the letters of a chunk are its bits again. */
  lemma GatherLetters(chunk: seq<byte>)
    requires 1 <= |chunk| <= 3
    ensures Gathered(ChunkLetters(chunk), |chunk| + 1) == Some(Bits(chunk))
  {
    hide SextetOf, Bits, Gathered, Value, Letter, Below;
    var letters, n := ChunkLetters(chunk), Bits(chunk);
    forall i | 0 <= i <= |chunk| ensures Value(letters[i]) == Some(SextetOf(n, i)) {
      LettersAreValues(SextetOf(n, i), letters[i]);
    }
    BytesOfBits(chunk);
    Digits64(n, |chunk|);
    GatherValues(letters, [SextetOf(n, 0) as int, SextetOf(n, 1) as int, SextetOf(n, 2) as int, SextetOf(n, 3) as int]);
  }

  /** A 24-bit number whose low bits are zero is the sum of its top sextets. */
  lemma Digits64(n: int, kept: nat)
    requires 0 <= n < 0x100_0000 && 1 <= kept <= 3 && n % Below(kept) == 0
    ensures var a, b, c, d := SextetOf(n, 0) as int, SextetOf(n, 1) as int, SextetOf(n, 2) as int,
              SextetOf(n, 3) as int;
            && n == a * 0x4_0000 + b * 0x1000 + c * 0x40 + d
            && (kept <= 2 ==> d == 0) && (kept == 1 ==> c == 0)
  {
    SumOfDigits(n);
    if kept == 1 {
      LowWord(n);
    } else if kept == 2 {
      LowByte(n);
    }
  }

  lemma SumOfDigits(n: int)
    requires 0 <= n < 0x100_0000
    ensures n == n / 0x4_0000 % 64 * 0x4_0000 + n / 0x1000 % 64 * 0x1000 + n / 0x40 % 64 * 0x40 + n % 64
  {
    var a, b, c := n / 0x40, n / 0x40 / 64, n / 0x40 / 64 / 64;
    assert n == a * 64 + n % 64;
    assert a == b * 64 + a % 64 && b == c * 64 + b % 64;
    assert n / 0x1000 == b && n / 0x4_0000 == c;
  }

  lemma LowWord(n: int)
    requires n % 0x1_0000 == 0
    ensures n / 0x40 % 64 == 0 && n % 64 == 0
  {
    var k := n / 0x1_0000;
    assert n == k * 0x400 * 0x40;
    assert n / 0x40 == k * 16 * 64;
  }

  lemma LowByte(n: int)
    requires n % 0x100 == 0
    ensures n % 64 == 0
  {
    var k := n / 0x100;
    assert n == k * 4 * 64;
  }

  lemma BytesOfBits(chunk: seq<byte>)
    requires 1 <= |chunk| <= 3
    ensures 0 <= Bits(chunk) < 0x100_0000 && Bits(chunk) % Below(|chunk|) == 0
    ensures TopBytes(Bits(chunk), |chunk|) == chunk
  {
    var n := Bits(chunk);
    assert n / 0x1_0000 == chunk[0] as int;
    if |chunk| > 1 { assert n / 0x100 == chunk[0] as int * 256 + chunk[1] as int; }
  }

  lemma ChunkDecodes(chunk: seq<byte>)
    requires 1 <= |chunk| <= 3
    ensures DecodedChunk(ChunkLetters(chunk)) == Some(chunk)
  {
    hide ChunkLetters, Gathered, TopBytes;
    BytesOfBits(chunk);
    GatherLetters(chunk);
  }

  lemma SextetsOfSum(v: seq<int>, n: int)
    requires |v| == 4 && forall i :: 0 <= i < 4 ==> 0 <= v[i] < 64
    requires n == v[0] * 0x4_0000 + v[1] * 0x1000 + v[2] * 0x40 + v[3]
    ensures 0 <= n < 0x100_0000 && forall i :: 0 <= i < 4 ==> SextetOf(n, i) as int == v[i]
  {
    assert n / 0x40 == v[0] * 0x1000 + v[1] * 0x40 + v[2];
    assert n / 0x1000 == v[0] * 0x40 + v[1];
    assert n / 0x4_0000 == v[0];
  }

  lemma {:induction false} GatheredHasValues(chunk: seq<byte>, upTo: nat)
    requires upTo <= |chunk| <= 4 && Gathered(chunk, upTo).Some?
    ensures forall i :: 0 <= i < upTo ==> Value(chunk[i]).Some?
  {
    hide Value;
    if upTo > 0 {
      GatheredHasValues(chunk, upTo - 1);
    }
  }

  /** The bits of letters lie within their places. */
  lemma GatheredDigits(chunk: seq<byte>)
    requires 2 <= |chunk| <= 4 && Gathered(chunk, |chunk|).Some?
    ensures var n := Gathered(chunk, |chunk|).value;
            0 <= n < 0x100_0000 && forall i :: 0 <= i < |chunk| ==> Value(chunk[i]) == Some(SextetOf(n, i))
  {
    hide Value, Gathered, SextetOf;
    GatheredHasValues(chunk, |chunk|);
    var v := seq(4, i requires 0 <= i < 4 => if i < |chunk| then Value(chunk[i]).value as int else 0);
    GatherValues(chunk, v);
    SextetsOfSum(v, Gathered(chunk, |chunk|).value);
  }

  lemma LettersOfDecoded(letters: seq<byte>, bytes: seq<byte>)
    requires 2 <= |letters| <= 4 && DecodedChunk(letters) == Some(bytes)
    ensures 1 <= |bytes| == |letters| - 1 && ChunkLetters(bytes) == letters
  {
    hide Gathered, TopBytes;
    GatheredDigits(letters);
    var n := Gathered(letters, |letters|).value;
    BitsOfTop(n, |letters| - 1);
    forall i | 0 <= i < |letters| ensures ChunkLetters(bytes)[i] == letters[i] {
      LettersAreValues(SextetOf(n, i), letters[i]);
    }
  }

  lemma BitsOfTop(n: int, kept: nat)
    requires 0 <= n < 0x100_0000 && 1 <= kept <= 3 && n % Below(kept) == 0
    ensures Bits(TopBytes(n, kept)) == n
  {
    assert n / 0x100 == n / 0x1_0000 * 256 + n / 0x100 % 256;
    assert n == n / 0x100 * 256 + n % 256;
    if kept == 1 {
      assert n == n / 0x1_0000 * 0x1_0000;
    } else if kept == 2 {
      assert n == n / 0x100 * 0x100;
    }
  }

  lemma DecodedUnfolds(letters: seq<byte>)
    requires letters != [] && |letters| % 4 != 1 && DecodedLetters(letters).Some?
    ensures var front := Front(letters);
            var more := letters[|front|..];
            && 2 <= |front| && |more| % 4 != 1 && |more| < |letters| && (|front| < 4 ==> more == [])
              && letters == front + more
            && DecodedChunk(front).Some? && DecodedLetters(more).Some?
            && DecodedLetters(letters).value == DecodedChunk(front).value + DecodedLetters(more).value
  {
    hide DecodedChunk;
  }

  /** What letters are read as encodes to them. */
  lemma {:induction false} ReadLettersEncode(letters: seq<byte>)
    requires |letters| % 4 != 1 && DecodedLetters(letters).Some?
    ensures Encoded(DecodedLetters(letters).value, false) == letters
    decreases |letters|
  {
    hide DecodedChunk, ChunkLetters, DecodedLetters, Encoded, Front;
    NothingEncoded();
    NothingDecoded(None);
    if letters != [] {
      var front := Front(letters);
      var more := letters[|front|..];
      DecodedUnfolds(letters);
      var first, rest := DecodedChunk(front).value, DecodedLetters(more).value;
      LettersOfDecoded(front, first);
      ReadLettersEncode(more);
      HeadOf(first, rest);
      EncodedUnfolds(first, rest);
    }
  }

  lemma EncodedUnfolds(first: seq<byte>, rest: seq<byte>)
    requires 1 <= |first| <= 3 && (|first| < 3 ==> rest == [])
    ensures Encoded(first + rest, false) == ChunkLetters(first) + Encoded(rest, false)
  {
    hide ChunkLetters;
    HeadOf(first, rest);
    assert ChunkLetters(first) + [] + Encoded(rest, false) == ChunkLetters(first) + Encoded(rest, false);
  }

  /** The letters of an encoding are read back. */
  lemma {:induction false} EncodedLettersRead(bytes: seq<byte>)
    ensures |Encoded(bytes, false)| % 4 != 1 && DecodedLetters(Encoded(bytes, false)) == Some(bytes)
  {
    hide DecodedChunk, ChunkLetters;
    if bytes != [] {
      var first := Head(bytes);
      var more := bytes[|first|..];
      assert bytes == first + more;
      EncodedLettersRead(more);
      ChunkDecodes(first);
      EncodedUnfolds(first, more);
      FrontOf(ChunkLetters(first), Encoded(more, false));
    }
  }

  lemma FrontOf(first: seq<byte>, rest: seq<byte>)
    requires 2 <= |first| <= 4 && (|first| < 4 ==> rest == [])
    ensures Front(first + rest) == first && (first + rest)[|first|..] == rest
  {
  }

  lemma NoPadding(chunk: seq<byte>)
    requires 1 <= |chunk| <= 3
    ensures forall i :: 0 <= i < |ChunkLetters(chunk)| ==> ChunkLetters(chunk)[i] != PAD
  {
    hide SextetOf, Bits, Letter;
    forall i | 0 <= i <= |chunk| ensures ChunkLetters(chunk)[i] != PAD {
      LettersAreValues(SextetOf(Bits(chunk), i), PAD);
    }
  }

  lemma {:induction false} PaddedIsUnpadded(bytes: seq<byte>)
    ensures Encoded(bytes, true) == Encoded(bytes, false) + Pads(|bytes|)
    ensures |Encoded(bytes, true)| % 4 == 0 && |Encoded(bytes, false)| % 4 != 1
    ensures forall i :: 0 <= i < |Encoded(bytes, false)| ==> Encoded(bytes, false)[i] != PAD
  {
    if bytes != [] {
      var first := Head(bytes);
      var rest := bytes[|first|..];
      assert bytes == first + rest;
      PaddedIsUnpadded(rest);
      PaddedUnfolds(first, rest);
      EncodedUnfolds(first, rest);
      NoPadding(first);
      PaddedTail(first, rest);
      hide ChunkLetters, Encoded, Padding, Pads;
    }
  }

  lemma PaddedTail(first: seq<byte>, rest: seq<byte>)
    requires 1 <= |first| <= 3 && (|first| < 3 ==> rest == [])
    requires Encoded(rest, true) == Encoded(rest, false) + Pads(|rest|)
    ensures ChunkLetters(first) + Padding(first) + Encoded(rest, true)
            == ChunkLetters(first) + Encoded(rest, false) + Pads(|first + rest|)
  {
    hide ChunkLetters, Encoded;
    NothingEncoded();
    var letters := ChunkLetters(first);
    if |first| == 3 {
      Assoc(letters, Encoded(rest, false), Pads(|rest|));
      assert letters + [] == letters;
      ThreeMore(|rest|);
    } else {
      assert first + [] == first;
      assert letters + [] == letters && (letters + Padding(first)) + [] == letters + Padding(first);
    }
  }

  function Pads(n: nat): seq<byte> {
    if n % 3 == 1 then [PAD, PAD] else if n % 3 == 2 then [PAD] else []
  }

  lemma ThreeMore(m: nat)
    ensures (3 + m) % 3 == m % 3 && (3 + m) / 3 == m / 3 + 1
  {
  }

  lemma {:induction false} EncodedLength(bytes: seq<byte>)
    ensures |Encoded(bytes, false)| == |bytes| / 3 * 4 + if |bytes| % 3 == 0 then 0 else |bytes| % 3 + 1
  {
    if bytes != [] {
      var first := Head(bytes);
      var more := bytes[|first|..];
      assert bytes == first + more;
      EncodedLength(more);
      EncodedUnfolds(first, more);
      ThreeMore(|more|);
      hide Encoded, ChunkLetters;
    }
  }

  lemma StripsPads(letters: seq<byte>, pads: seq<byte>)
    requires (letters != [] ==> letters[|letters| - 1] != PAD) && (pads == [] || pads == [PAD] || pads == [PAD, PAD])
    ensures Stripped(letters + pads) == letters
  {
    var text := letters + pads;
    if pads == [] {
      assert text == letters;
      NoSuffix(text);
    } else if pads == [PAD] {
      assert text[|text| - 1..] == [PAD];
      if |text| >= 2 { assert text[|text| - 2..][0] == letters[|letters| - 1]; }
    } else {
      assert text[|text| - 2..] == [PAD, PAD];
    }
  }

  lemma NoSuffix(text: seq<byte>)
    requires text != [] ==> text[|text| - 1] != PAD
    ensures !EndsWith(text, [PAD]) && !EndsWith(text, [PAD, PAD])
  {
    if text != [] {
      assert text[|text| - 1..][0] != PAD;
      if |text| >= 2 { assert text[|text| - 2..][1] != PAD; }
    }
  }

  /** Every encoding is read, with its padding or wholly without it. */
  lemma {:induction false} EncodingsDecode(bytes: seq<byte>)
    ensures Decoded(Encoded(bytes, true)) == Some(bytes) == Decoded(Encoded(bytes, false))
  {
    hide DecodedLetters, Encoded, Stripped;
    var letters := Encoded(bytes, false);
    PaddedIsUnpadded(bytes);
    EncodedLettersRead(bytes);
    StripsPads(letters, Pads(|bytes|));
    StripsPads(letters, []);
    assert letters + [] == letters;
  }

  /** `decode` accepts exactly the encodings, with their padding or wholly without it, and
      returns what was encoded. */
  lemma {:induction false} DecodesExactlyTheEncodings(text: seq<byte>, bytes: seq<byte>)
    ensures Decoded(text) == Some(bytes) <==> text == Encoded(bytes, true) || text == Encoded(bytes, false)
  {
    hide DecodedLetters, Encoded, Stripped;
    EncodingsDecode(bytes);
    if Decoded(text) == Some(bytes) {
      var letters := Stripped(text);
      ReadLettersEncode(letters);
      PaddedIsUnpadded(bytes);
      EncodedLength(bytes);
      StrippedBack(text);
      var pads := text[|letters|..];
      if pads != [] {
        assert |letters| % 4 + |pads| == 4;
        assert pads == Pads(|bytes|);
      }
    }
  }

  lemma StrippedBack(text: seq<byte>)
    ensures var letters := Stripped(text);
            var pads := text[|letters|..];
            text == letters + pads && (pads == [] || pads == [PAD] || pads == [PAD, PAD])
  {
    if EndsWith(text, [PAD, PAD]) {
    } else if EndsWith(text, [PAD]) {
    }
  }
}
