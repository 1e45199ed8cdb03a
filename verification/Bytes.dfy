/** Bytes and the fixed-width numbers read from them. */
module Bytes {
  import opened Contracts

  type byte = b: int | 0 <= b < 256 witness 0

  const TWO_16: nat := 0x1_0000
  const TWO_32: nat := 0x1_0000_0000

  function Be16(n: nat): (b: seq<byte>)
    requires n < TWO_16
    ensures |b| == 2
  {
    [n / 256, n % 256]
  }

  function Be32(n: nat): (b: seq<byte>)
    requires n < TWO_32
    ensures |b| == 4
  {
    [n / 0x100_0000, n / 0x1_0000 % 256, n / 256 % 256, n % 256]
  }

  /** `be16`: `None` past the end. */
  function ReadBe16(bytes: seq<byte>, at: nat): (n: Option<nat>)
    ensures n.Some? <==> at + 2 <= |bytes|
    ensures n.Some? ==> n.value < TWO_16
  {
    if at + 2 <= |bytes| then Some(bytes[at] as int * 256 + bytes[at + 1]) else None
  }

  function ReadBe32(bytes: seq<byte>, at: nat): (n: Option<nat>)
    ensures n.Some? <==> at + 4 <= |bytes|
    ensures n.Some? ==> n.value < TWO_32
  {
    if at + 4 <= |bytes| then Some(bytes[at] as int * 0x100_0000 + bytes[at + 1] as int * 0x1_0000 + bytes[at + 2] as int * 256 + bytes[at + 3])
    else None
  }

  function ReadLe16(bytes: seq<byte>, at: nat): Option<nat> {
    if at + 2 <= |bytes| then Some(bytes[at] as int + bytes[at + 1] as int * 256) else None
  }

  function ReadLe24(bytes: seq<byte>, at: nat): Option<nat> {
    if at + 3 <= |bytes| then Some(bytes[at] as int + bytes[at + 1] as int * 256 + bytes[at + 2] as int * 0x1_0000) else None
  }

  lemma Assoc(a: seq<byte>, b: seq<byte>, c: seq<byte>)
    ensures (a + b) + c == a + (b + c)
  {
  }

  lemma SliceOfTail(bytes: seq<byte>, at: nat, i: nat, j: nat)
    requires i <= j && at + j <= |bytes|
    ensures bytes[at..][i..j] == bytes[at + i..at + j]
  {
  }

  lemma ReadsBe16(n: nat, bytes: seq<byte>, at: nat)
    requires n < TWO_16 && at + 2 <= |bytes| && bytes[at..at + 2] == Be16(n)
    ensures ReadBe16(bytes, at) == Some(n)
  {
    assert bytes[at] == Be16(n)[0] && bytes[at + 1] == Be16(n)[1];
  }

  lemma ReadsBe32(n: nat, bytes: seq<byte>, at: nat)
    requires n < TWO_32 && at + 4 <= |bytes| && bytes[at..at + 4] == Be32(n)
    ensures ReadBe32(bytes, at) == Some(n)
  {
    var b := Be32(n);
    assert bytes[at] == b[0] && bytes[at + 1] == b[1] && bytes[at + 2] == b[2] && bytes[at + 3] == b[3];
    assert n / 0x1_0000 == n / 0x100_0000 * 256 + b[1] as int;
    assert n / 256 == n / 0x1_0000 * 256 + b[2] as int;
  }

  lemma WritesBe32(bytes: seq<byte>, at: nat)
    requires at + 4 <= |bytes|
    ensures Be32(ReadBe32(bytes, at).value) == bytes[at..at + 4]
  {
    var n := ReadBe32(bytes, at).value;
    assert n / 256 == bytes[at] as int * 0x1_0000 + bytes[at + 1] as int * 256 + bytes[at + 2] as int;
    assert n / 0x1_0000 == bytes[at] as int * 256 + bytes[at + 1] as int;
    assert n / 0x100_0000 == bytes[at];
    assert bytes[at..at + 4] == [bytes[at], bytes[at + 1], bytes[at + 2], bytes[at + 3]];
  }
}
