/** Bytes and the little-endian integer layout used by every length prefix
    in the chat server (the `byteorder` crate's `write_u32`/`write_u64`/`read_u32`
    with `LittleEndian`). */
module Bytes {

  type Byte = x: int | 0 <= x < 256

  /** 256^width: the number of distinct values a `width`-byte integer can hold. */
  function Pow256(width: nat): (p: nat)
    ensures p >= 1
    ensures width >= 1 ==> p >= 256
  {
    if width == 0 then 1 else 256 * Pow256(width - 1)
  }

  /** Concatenation regroups freely; stated once so that proofs over heavy contexts
      need not rediscover it. */
  lemma AppendAssoc<T>(a: seq<T>, b: seq<T>, c: seq<T>)
    ensures a + b + c == a + (b + c)
  {
  }

  const U32_LIMIT: nat := 0x1_0000_0000
  const U64_LIMIT: nat := 0x1_0000_0000_0000_0000

  lemma Pow256Values()
    ensures Pow256(4) == U32_LIMIT
    ensures Pow256(8) == U64_LIMIT
  {
  }

  /** The `width` least significant bytes of `n`, least significant first:
      what writing `n` as an unsigned little-endian integer of `width` bytes emits. */
  function LE(n: nat, width: nat): (bs: seq<Byte>)
    ensures |bs| == width
  {
    if width == 0 then [] else [n % 256] + LE(n / 256, width - 1)
  }

  /** The unsigned value of a little-endian byte string. */
  function FromLE(bs: seq<Byte>): (n: nat)
    ensures n < Pow256(|bs|)
  {
    if bs == [] then 0 else bs[0] + 256 * FromLE(bs[1..])
  }

  /** Reading back a written integer gives it back when it fits the width. */
  lemma {:induction false} FromLEOfLE(n: nat, width: nat)
    requires n < Pow256(width)
    ensures FromLE(LE(n, width)) == n
  {
    if width > 0 {
      assert n / 256 < Pow256(width - 1);
      FromLEOfLE(n / 256, width - 1);
      assert LE(n, width)[1..] == LE(n / 256, width - 1);
    }
  }

  /** Every byte string is the encoding of its own value: decoding loses nothing. */
  lemma {:induction false} LEOfFromLE(bs: seq<Byte>)
    ensures LE(FromLE(bs), |bs|) == bs
  {
    if bs != [] {
      LEOfFromLE(bs[1..]);
      var n := FromLE(bs);
      assert n % 256 == bs[0] && n / 256 == FromLE(bs[1..]);
    }
  }

  /** A value that fits `a` bytes, written with `a + b` bytes, is its `a`-byte encoding
      followed by `b` zero bytes. */
  lemma {:induction false} LEPadded(n: nat, a: nat, b: nat)
    requires n < Pow256(a)
    ensures LE(n, a + b) == LE(n, a) + LE(0, b)
    decreases a
  {
    if a > 0 {
      assert n / 256 < Pow256(a - 1);
      LEPadded(n / 256, a - 1, b);
    }
  }
}
