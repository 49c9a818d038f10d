/** Bytes and pieces of byte streams. */
module Bytes {
  type Byte = x: int | 0 <= x < 256

  /** The pieces of a stream, joined. */
  function Flatten(chunks: seq<seq<Byte>>): seq<Byte> {
    if chunks == [] then [] else Flatten(chunks[..|chunks| - 1]) + chunks[|chunks| - 1]
  }

  /** Four bytes, most significant first. */
  function FromBigEndian(b: seq<Byte>): (n: nat)
    requires |b| == 4
    ensures n < 0x1_0000_0000
  {
    ((b[0] as int * 256 + b[1]) * 256 + b[2]) * 256 + b[3]
  }

  function ToBigEndian(n: nat): (b: seq<Byte>)
    requires n < 0x1_0000_0000
    ensures |b| == 4
  {
    [n / 0x100_0000, n / 0x1_0000 % 256, n / 256 % 256, n % 256]
  }

  lemma BigEndianRoundTrip(n: nat)
    requires n < 0x1_0000_0000
    ensures FromBigEndian(ToBigEndian(n)) == n
  {
    var low := n / 256;
    var high := low / 256;
    assert n / 0x1_0000 == high && n / 0x100_0000 == high / 256;
  }

  /** The order of two numbers is decided by the first byte in which they differ. */
  lemma FirstDifferenceDecides(a: seq<Byte>, b: seq<Byte>, k: nat)
    requires |a| == 4 && |b| == 4 && k < 4 && a[k] < b[k]
    requires forall i :: 0 <= i < k ==> a[i] == b[i]
    ensures FromBigEndian(a) < FromBigEndian(b)
  {
    assert k == 0 || k == 1 || k == 2 || k == 3;
  }
}
