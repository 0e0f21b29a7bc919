/**
  Fixed-width unsigned integers as bytes. A Rust `usize` on the 64-bit hosts
  the program runs on is 8 bytes wide; `to_ne_bytes`/`from_ne_bytes` use the
  host's byte order, which is a parameter here.
 */
module Bytes {

  type Byte = x: int | 0 <= x < 256

  /** The number of bytes of a `usize`, `size_of::<usize>()`. */
  const UsizeBytes: nat := 8

  /** 2^64: every `usize` is below it. */
  const UsizeBound: int := 0x1_0000_0000_0000_0000

  type Usize = x: int | 0 <= x < UsizeBound

  datatype ByteOrder = LittleEndian | BigEndian

  function Pow256(k: nat): (r: nat)
    ensures r > 0
  {
    if k == 0 then 1 else 256 * Pow256(k - 1)
  }

  lemma UsizeBoundIsPow256()
    ensures Pow256(UsizeBytes) == UsizeBound
  {
  }

  /** The k least significant bytes of n, least significant first. */
  function ToLittleEndian(n: nat, k: nat): (r: seq<Byte>)
    requires n < Pow256(k)
    ensures |r| == k
  {
    if k == 0 then [] else [(n % 256) as Byte] + ToLittleEndian(n / 256, k - 1)
  }

  /** The number whose little-endian bytes are b. */
  function FromLittleEndian(b: seq<Byte>): (r: nat)
    ensures r < Pow256(|b|)
  {
    if b == [] then 0 else b[0] as int + 256 * FromLittleEndian(b[1..])
  }

  lemma {:induction false} FromToLittleEndian(n: nat, k: nat)
    requires n < Pow256(k)
    ensures FromLittleEndian(ToLittleEndian(n, k)) == n
  {
    if k > 0 {
      var q, r := n / 256, n % 256;
      assert n == 256 * q + r;
      assert q < Pow256(k - 1);
      var t := ToLittleEndian(n, k);
      assert t[0] as int == r;
      assert t[1..] == ToLittleEndian(q, k - 1);
      FromToLittleEndian(q, k - 1);
      assert FromLittleEndian(t) == r + 256 * q;
    }
  }

  lemma {:induction false} ToFromLittleEndian(b: seq<Byte>)
    ensures ToLittleEndian(FromLittleEndian(b), |b|) == b
  {
    if b != [] {
      var n := FromLittleEndian(b);
      var m := FromLittleEndian(b[1..]);
      var d := b[0] as int;
      assert n == d + 256 * m;
      assert 0 <= d < 256;
      assert n % 256 == d && n / 256 == m;
      ToFromLittleEndian(b[1..]);
      assert (d as Byte) == b[0];
      assert ToLittleEndian(n, |b|) == [b[0]] + ToLittleEndian(m, |b| - 1);
    }
  }

  function Reverse<T>(s: seq<T>): (r: seq<T>)
    ensures |r| == |s|
    ensures forall i :: 0 <= i < |s| ==> r[i] == s[|s| - 1 - i]
  {
    if s == [] then [] else Reverse(s[1..]) + [s[0]]
  }

  lemma ReverseReverse<T>(s: seq<T>)
    ensures Reverse(Reverse(s)) == s
  {
    assert forall i :: 0 <= i < |s| ==> Reverse(Reverse(s))[i] == s[i];
  }

  /** `usize::to_ne_bytes` on a host with the given byte order. */
  function UsizeToBytes(order: ByteOrder, n: Usize): (r: seq<Byte>)
    ensures |r| == UsizeBytes
  {
    UsizeBoundIsPow256();
    var le := ToLittleEndian(n, UsizeBytes);
    if order == LittleEndian then le else Reverse(le)
  }

  /** `usize::from_ne_bytes` on a host with the given byte order. */
  function UsizeFromBytes(order: ByteOrder, b: seq<Byte>): (r: Usize)
    requires |b| == UsizeBytes
  {
    UsizeBoundIsPow256();
    FromLittleEndian(if order == LittleEndian then b else Reverse(b))
  }

  /** Reading back the bytes of n gives n. */
  lemma UsizeRoundTrip(order: ByteOrder, n: Usize)
    ensures UsizeFromBytes(order, UsizeToBytes(order, n)) == n
  {
    UsizeBoundIsPow256();
    FromToLittleEndian(n, UsizeBytes);
    ReverseReverse(ToLittleEndian(n, UsizeBytes));
  }

  /** Every 8 bytes are the bytes of exactly one usize. */
  lemma UsizeBytesRoundTrip(order: ByteOrder, b: seq<Byte>)
    requires |b| == UsizeBytes
    ensures UsizeToBytes(order, UsizeFromBytes(order, b)) == b
  {
    UsizeBoundIsPow256();
    if order == LittleEndian {
      ToFromLittleEndian(b);
    } else {
      ToFromLittleEndian(Reverse(b));
      ReverseReverse(b);
    }
  }
}
