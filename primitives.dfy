/** Fixed-width field codecs shared by the account record and the instruction
    payloads: u8, little-endian u64, bool and the 32-byte public key. Each
    reader takes a buffer and an offset and returns the value together with
    the offset just past the bytes it consumed, or fails when fewer bytes
    remain than the field's width. */
module Primitives {

  type Byte = x: int | 0 <= x < 256

  /** An opaque 32-byte address, compared by its bytes. */
  type PublicKey = s: seq<Byte> | |s| == PUBLIC_KEY_SIZE witness seq(32, _ => 0)

  const U8_SIZE: nat := 1
  const U64_SIZE: nat := 8
  const BOOL_SIZE: nat := 1
  const PUBLIC_KEY_SIZE: nat := 32

  /** 2^64: every u64 value lies below it. */
  const U64_LIMIT: nat := 0x1_0000_0000_0000_0000

  /** Why a field could not be read. */
  datatype DecodeError = BufferTooShort(offset: nat, width: nat, available: nat)

  datatype Result<T> = Success(value: T) | Failure(error: DecodeError) {
    predicate IsFailure() { Failure? }
    function PropagateFailure<U>(): Result<U> requires Failure? { Failure(error) }
    function Extract(): T requires Success? { value }
  }

  function Pow256(n: nat): (p: nat)
    ensures p >= 1
  {
    if n == 0 then 1 else 256 * Pow256(n - 1)
  }

  lemma U64LimitIsEightBytes()
    ensures Pow256(U64_SIZE) == U64_LIMIT
  {
    assert Pow256(2) == 0x1_0000;
    assert Pow256(4) == 0x1_0000_0000 by {
      assert Pow256(3) == 0x100_0000;
    }
    assert Pow256(6) == 0x1_0000_0000_0000 by {
      assert Pow256(5) == 0x100_0000_0000;
    }
    assert Pow256(7) == 0x100_0000_0000_0000;
  }

  // ---------------------------------------------------------------------------
  // Little-endian unsigned integers of any width

  /** The unsigned value of `bs` read least significant byte first. */
  function DecodeLE(bs: seq<Byte>): (n: nat)
    ensures n < Pow256(|bs|)
  {
    if |bs| == 0 then 0 else bs[0] + 256 * DecodeLE(bs[1..])
  }

  /** The `width` bytes of `n`, least significant first; the encoding is
      decoded back to `n`. */
  function EncodeLE(n: nat, width: nat): (bs: seq<Byte>)
    requires n < Pow256(width)
    ensures |bs| == width
    ensures DecodeLE(bs) == n
  {
    if width == 0 then [] else [n % 256] + EncodeLE(n / 256, width - 1)
  }

  /** Byte `i` of the little-endian encoding is digit `i` of `n` in base 256. */
  lemma {:induction false} EncodeLEDigit(n: nat, width: nat, i: nat)
    requires n < Pow256(width) && i < width
    ensures EncodeLE(n, width)[i] == (n / Pow256(i)) % 256
  {
    if i > 0 {
      EncodeLEDigit(n / 256, width - 1, i - 1);
      DivDiv256(n, Pow256(i - 1));
    } else {
      assert n / Pow256(0) == n;
    }
  }

  lemma DivDiv256(n: nat, p: nat)
    requires p >= 1
    ensures n / 256 / p == n / (256 * p)
  {
    var q, r := n / 256, n % 256;
    var q2, r2 := q / p, q % p;
    assert q == q2 * p + r2;
    calc {
      n;
      256 * q + r;
      256 * (q2 * p + r2) + r;
      { MulRearrange(256, q2, p); }
      (256 * p) * q2 + (256 * r2 + r);
    }
    assert 256 * r2 + r < 256 * p by {
      assert r2 <= p - 1;
      assert 256 * r2 <= 256 * (p - 1);
    }
    DivUnique(n, 256 * p, q2, 256 * r2 + r);
  }

  /** Associativity and commutativity together: the factor `b` moves last. */
  lemma MulRearrange(a: int, b: int, c: int)
    ensures a * (b * c) == (a * c) * b
  {
  }

  lemma DivUnique(n: int, d: int, q: int, r: int)
    requires d > 0 && 0 <= r < d && n == d * q + r
    ensures n / d == q
  {
    var q', r' := n / d, n % d;
    if q > q' {
      MulMonotone(d, q' + 1, q);
    } else if q < q' {
      MulMonotone(d, q + 1, q');
    }
  }

  lemma {:induction false} MulMonotone(d: int, a: int, b: int)
    requires d >= 0 && a <= b
    ensures d * a <= d * b
  {
    if d > 0 {
      MulMonotone(d - 1, a, b);
      assert d * a == (d - 1) * a + a && d * b == (d - 1) * b + b;
    }
  }

  /** Decoding loses nothing: re-encoding a decoded byte string gives it back. */
  lemma {:induction false} EncodeDecodeLE(bs: seq<Byte>)
    ensures EncodeLE(DecodeLE(bs), |bs|) == bs
  {
    if |bs| > 0 {
      var n := DecodeLE(bs);
      assert n % 256 == bs[0] && n / 256 == DecodeLE(bs[1..]);
      EncodeDecodeLE(bs[1..]);
    }
  }

  /** Two byte strings of one width with the same value are equal. */
  lemma DecodeLEInjective(a: seq<Byte>, b: seq<Byte>)
    requires |a| == |b| && DecodeLE(a) == DecodeLE(b)
    ensures a == b
  {
    EncodeDecodeLE(a);
    EncodeDecodeLE(b);
  }

  // ---------------------------------------------------------------------------
  // Field writers

  /** A u8 is written as the single byte it is. */
  function WriteU8(v: Byte): (bs: seq<Byte>)
    ensures |bs| == U8_SIZE && bs[0] == v
  {
    [v]
  }

  function WriteU64(v: nat): (bs: seq<Byte>)
    requires v < U64_LIMIT
    ensures |bs| == U64_SIZE
    ensures DecodeLE(bs) == v
  {
    U64LimitIsEightBytes();
    EncodeLE(v, U64_SIZE)
  }

  /** 1000 is written as E8 03 00 00 00 00 00 00. */
  lemma WriteU64Of1000()
    ensures WriteU64(1000) == [0xE8, 0x03, 0x00, 0x00, 0x00, 0x00, 0x00, 0x00]
  {
    U64LimitIsEightBytes();
    var zeros := EncodeLE(0, 6);
    assert zeros == [0, 0, 0, 0, 0, 0] by {
      forall i | 0 <= i < 6 ensures zeros[i] == 0 {
        EncodeLEDigit(0, 6, i);
      }
    }
    assert EncodeLE(3, 7) == [0x03] + zeros;
  }

  /** Booleans are written as the byte 1 (true) or 0 (false). */
  function WriteBool(b: bool): (bs: seq<Byte>)
    ensures |bs| == BOOL_SIZE && bs[0] <= 1
    ensures bs[0] == 1 <==> b
  {
    [if b then 1 else 0]
  }

  /** A public key is written as its 32 bytes, unchanged. */
  function WritePublicKey(k: PublicKey): (bs: seq<Byte>)
    ensures |bs| == PUBLIC_KEY_SIZE
    ensures forall i :: 0 <= i < PUBLIC_KEY_SIZE ==> bs[i] == k[i]
  {
    k
  }

  // ---------------------------------------------------------------------------
  // Field readers

  /** The `width` bytes at `offset`, failing when fewer remain. */
  function ReadBytes(buf: seq<Byte>, offset: nat, width: nat): (r: Result<(seq<Byte>, nat)>)
    ensures r.Success? <==> offset + width <= |buf|
    ensures r.Success? ==> r.value.0 == buf[offset..offset + width] && r.value.1 == offset + width
  {
    if offset + width <= |buf| then Success((buf[offset..offset + width], offset + width))
    else Failure(BufferTooShort(offset, width, |buf|))
  }

  function ReadU8(buf: seq<Byte>, offset: nat): (r: Result<(Byte, nat)>)
    ensures r.Success? <==> offset + U8_SIZE <= |buf|
    ensures r.Success? ==> r.value == (buf[offset], offset + U8_SIZE)
  {
    var (bs, next) :- ReadBytes(buf, offset, U8_SIZE);
    Success((bs[0], next))
  }

  function ReadU64(buf: seq<Byte>, offset: nat): (r: Result<(nat, nat)>)
    ensures r.Success? <==> offset + U64_SIZE <= |buf|
    ensures r.Success? ==> r.value.0 < U64_LIMIT && r.value.1 == offset + U64_SIZE
    ensures r.Success? ==> WriteU64(r.value.0) == buf[offset..offset + U64_SIZE]
  {
    var (bs, next) :- ReadBytes(buf, offset, U64_SIZE);
    U64LimitIsEightBytes();
    EncodeDecodeLE(bs);
    Success((DecodeLE(bs), next))
  }

  /** A boolean is true exactly when its byte is 1; every other byte reads
      as false. */
  function ReadBool(buf: seq<Byte>, offset: nat): (r: Result<(bool, nat)>)
    ensures r.Success? <==> offset + BOOL_SIZE <= |buf|
    ensures r.Success? ==> r.value == (buf[offset] == 1, offset + BOOL_SIZE)
  {
    var (b, next) :- ReadU8(buf, offset);
    Success((b == 1, next))
  }

  function ReadPublicKey(buf: seq<Byte>, offset: nat): (r: Result<(PublicKey, nat)>)
    ensures r.Success? <==> offset + PUBLIC_KEY_SIZE <= |buf|
    ensures r.Success? ==> r.value == (buf[offset..offset + PUBLIC_KEY_SIZE], offset + PUBLIC_KEY_SIZE)
  {
    var (bs, next) :- ReadBytes(buf, offset, PUBLIC_KEY_SIZE);
    var key: PublicKey := bs;
    Success((key, next))
  }

  // ---------------------------------------------------------------------------
  // Each reader inverts its writer at any position in a larger buffer

  lemma ReadU8Write(pre: seq<Byte>, v: Byte, post: seq<Byte>)
    ensures ReadU8(pre + WriteU8(v) + post, |pre|) == Success((v, |pre| + U8_SIZE))
  {
    assert (pre + WriteU8(v) + post)[|pre|] == v;
  }

  lemma ReadU64Write(pre: seq<Byte>, v: nat, post: seq<Byte>)
    requires v < U64_LIMIT
    ensures ReadU64(pre + WriteU64(v) + post, |pre|) == Success((v, |pre| + U64_SIZE))
  {
    var buf := pre + WriteU64(v) + post;
    assert buf[|pre|..|pre| + U64_SIZE] == WriteU64(v);
  }

  lemma ReadBoolWrite(pre: seq<Byte>, b: bool, post: seq<Byte>)
    ensures ReadBool(pre + WriteBool(b) + post, |pre|) == Success((b, |pre| + BOOL_SIZE))
  {
    assert (pre + WriteBool(b) + post)[|pre|] == if b then 1 else 0;
  }

  lemma ReadPublicKeyWrite(pre: seq<Byte>, k: PublicKey, post: seq<Byte>)
    ensures ReadPublicKey(pre + WritePublicKey(k) + post, |pre|) == Success((k, |pre| + PUBLIC_KEY_SIZE))
  {
    assert (pre + WritePublicKey(k) + post)[|pre|..|pre| + PUBLIC_KEY_SIZE] == k;
  }
}
