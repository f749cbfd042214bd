/** The ExternalPriceAccount record: a fixed 42-byte layout holding the
    account-kind tag, the price per share (u64, little-endian), the mint the
    price is expressed in, and whether the vault may be combined. */
module ExternalPriceAccountCodec {
  import opened Primitives

  /** The one-byte tag of the account kind; its set of variants belongs to a
      module outside this model, so every byte is carried unchanged. */
  type Key = Byte

  datatype ExternalPriceAccountArgs = ExternalPriceAccountArgs(
    key: Key,
    pricePerShare: nat,
    priceMint: PublicKey,
    allowedToCombine: bool)

  datatype ExternalPriceAccount = ExternalPriceAccount(
    key: Key,
    pricePerShare: nat,
    priceMint: PublicKey,
    allowedToCombine: bool)

  /** A record whose price fits the u64 field. */
  predicate Valid(r: ExternalPriceAccount) {
    r.pricePerShare < U64_LIMIT
  }

  // Field offsets, in declaration order.
  const KEY_OFFSET: nat := 0
  const PRICE_PER_SHARE_OFFSET: nat := KEY_OFFSET + U8_SIZE
  const PRICE_MINT_OFFSET: nat := PRICE_PER_SHARE_OFFSET + U64_SIZE
  const ALLOWED_TO_COMBINE_OFFSET: nat := PRICE_MINT_OFFSET + PUBLIC_KEY_SIZE

  /** The size of every serialized record: the sum of the field widths. */
  function ByteSize(): (n: nat)
    ensures n == ALLOWED_TO_COMBINE_OFFSET + BOOL_SIZE
  {
    U8_SIZE + U64_SIZE + PUBLIC_KEY_SIZE + BOOL_SIZE
  }

  lemma ByteSizeIs42()
    ensures ByteSize() == 42
  {
  }

  function FromArgs(args: ExternalPriceAccountArgs): (r: ExternalPriceAccount)
    ensures r.key == args.key && r.pricePerShare == args.pricePerShare
    ensures r.priceMint == args.priceMint && r.allowedToCombine == args.allowedToCombine
  {
    ExternalPriceAccount(args.key, args.pricePerShare, args.priceMint, args.allowedToCombine)
  }

  /** The buffer holding the record and the number of bytes written to it. */
  function Serialize(r: ExternalPriceAccount): (out: (seq<Byte>, nat))
    requires Valid(r)
    ensures |out.0| == ByteSize() && out.1 == ByteSize()
  {
    var buf := WriteU8(r.key) + WriteU64(r.pricePerShare)
      + WritePublicKey(r.priceMint) + WriteBool(r.allowedToCombine);
    (buf, |buf|)
  }

  /** Reads the fields in declaration order starting at `offset`; yields the
      record and the offset just past it, or fails when the buffer ends
      before the last field. */
  function Deserialize(buf: seq<Byte>, offset: nat): (res: Result<(ExternalPriceAccount, nat)>)
    ensures res.Success? <==> offset + ByteSize() <= |buf|
    ensures res.Success? ==> res.value.1 == offset + ByteSize() && Valid(res.value.0)
    ensures res.Success? ==>
      var r := res.value.0;
      && r.key == buf[offset + KEY_OFFSET]
      && WriteU64(r.pricePerShare) == buf[offset + PRICE_PER_SHARE_OFFSET..offset + PRICE_MINT_OFFSET]
      && r.priceMint == buf[offset + PRICE_MINT_OFFSET..offset + ALLOWED_TO_COMBINE_OFFSET]
      && r.allowedToCombine == (buf[offset + ALLOWED_TO_COMBINE_OFFSET] == 1)
  {
    var (key, afterKey) :- ReadU8(buf, offset);
    var (pricePerShare, afterPrice) :- ReadU64(buf, afterKey);
    var (priceMint, afterMint) :- ReadPublicKey(buf, afterPrice);
    var (allowedToCombine, end) :- ReadBool(buf, afterMint);
    Success((FromArgs(ExternalPriceAccountArgs(key, pricePerShare, priceMint, allowedToCombine)), end))
  }

  /** True when the bytes from `offset` to the end of `buf` are exactly one
      record long. */
  predicate HasCorrectByteSize(buf: seq<Byte>, offset: nat): (b: bool)
    ensures b <==> offset <= |buf| && |buf[offset..]| == ByteSize()
  {
    |buf| - offset == ByteSize()
  }

  // ---------------------------------------------------------------------------
  // Properties

  /** The layout: key at byte 0, the price as little-endian u64 in bytes
      1..8, the mint in bytes 9..40, the flag as 0/1 in byte 41. */
  lemma SerializeLayout(r: ExternalPriceAccount)
    requires Valid(r)
    ensures var buf := Serialize(r).0;
      && buf[KEY_OFFSET] == r.key
      && buf[PRICE_PER_SHARE_OFFSET..PRICE_MINT_OFFSET] == WriteU64(r.pricePerShare)
      && DecodeLE(buf[PRICE_PER_SHARE_OFFSET..PRICE_MINT_OFFSET]) == r.pricePerShare
      && (forall i :: 0 <= i < U64_SIZE ==>
            buf[PRICE_PER_SHARE_OFFSET + i] == (r.pricePerShare / Pow256(i)) % 256)
      && buf[PRICE_MINT_OFFSET..ALLOWED_TO_COMBINE_OFFSET] == r.priceMint
      && buf[ALLOWED_TO_COMBINE_OFFSET] == (if r.allowedToCombine then 1 else 0)
  {
    var buf := Serialize(r).0;
    var price := WriteU64(r.pricePerShare);
    assert buf == [r.key] + price + r.priceMint + [if r.allowedToCombine then 1 else 0];
    assert buf[PRICE_PER_SHARE_OFFSET..PRICE_MINT_OFFSET] == price;
    assert buf[PRICE_MINT_OFFSET..ALLOWED_TO_COMBINE_OFFSET] == r.priceMint;
    U64LimitIsEightBytes();
    forall i | 0 <= i < U64_SIZE
      ensures buf[PRICE_PER_SHARE_OFFSET + i] == (r.pricePerShare / Pow256(i)) % 256
    {
      assert buf[PRICE_PER_SHARE_OFFSET + i] == price[i];
      EncodeLEDigit(r.pricePerShare, U64_SIZE, i);
    }
  }

  /** Round trip: a record serialized anywhere inside a larger buffer is read
      back whole from its offset, and reading ends just past it. */
  lemma DeserializeSerialize(r: ExternalPriceAccount, prefix: seq<Byte>, suffix: seq<Byte>)
    requires Valid(r)
    ensures Deserialize(prefix + Serialize(r).0 + suffix, |prefix|)
         == Success((r, |prefix| + ByteSize()))
  {
    var p := |prefix|;
    var buf := prefix + Serialize(r).0 + suffix;
    SerializeLayout(r);
    assert buf[p..p + ByteSize()] == Serialize(r).0;
    var res := Deserialize(buf, p);
    var d := res.value.0;
    assert d.key == r.key;
    assert buf[p + PRICE_PER_SHARE_OFFSET..p + PRICE_MINT_OFFSET]
        == Serialize(r).0[PRICE_PER_SHARE_OFFSET..PRICE_MINT_OFFSET];
    DecodeLEInjective(WriteU64(d.pricePerShare), WriteU64(r.pricePerShare));
    assert buf[p + PRICE_MINT_OFFSET..p + ALLOWED_TO_COMBINE_OFFSET]
        == Serialize(r).0[PRICE_MINT_OFFSET..ALLOWED_TO_COMBINE_OFFSET];
    assert d.allowedToCombine == r.allowedToCombine;
  }

  /** The round trip at offset 0 of a buffer holding just the record. */
  lemma DeserializeSerializeExact(r: ExternalPriceAccount)
    requires Valid(r)
    ensures Deserialize(Serialize(r).0, 0) == Success((r, ByteSize()))
  {
    DeserializeSerialize(r, [], []);
    assert [] + Serialize(r).0 + [] == Serialize(r).0;
  }

  /** The other direction: when the flag byte is canonical (0 or 1),
      serializing what was read reproduces the bytes it was read from. */
  lemma SerializeDeserialize(buf: seq<Byte>, offset: nat)
    requires offset + ByteSize() <= |buf|
    requires buf[offset + ALLOWED_TO_COMBINE_OFFSET] <= 1
    ensures Deserialize(buf, offset).Success?
    ensures Serialize(Deserialize(buf, offset).value.0).0 == buf[offset..offset + ByteSize()]
  {
    var r := Deserialize(buf, offset).value.0;
    var flag := if r.allowedToCombine then 1 else 0;
    assert flag == buf[offset + ALLOWED_TO_COMBINE_OFFSET];
    calc {
      buf[offset..offset + ByteSize()];
      buf[offset..offset + PRICE_PER_SHARE_OFFSET]
        + buf[offset + PRICE_PER_SHARE_OFFSET..offset + PRICE_MINT_OFFSET]
        + buf[offset + PRICE_MINT_OFFSET..offset + ALLOWED_TO_COMBINE_OFFSET]
        + buf[offset + ALLOWED_TO_COMBINE_OFFSET..offset + ByteSize()];
      [r.key] + WriteU64(r.pricePerShare) + r.priceMint + [flag];
    }
  }

  /** A buffer has the correct size exactly when a record read from `offset`
      succeeds and ends at the end of the buffer. */
  lemma HasCorrectByteSizeIffWholeRecord(buf: seq<Byte>, offset: nat)
    ensures HasCorrectByteSize(buf, offset)
        <==> (Deserialize(buf, offset).Success? && Deserialize(buf, offset).value.1 == |buf|)
  {
  }

  /** A 42-byte buffer read from offset 0 has the correct size; 41 and 43
      bytes do not. */
  lemma HasCorrectByteSizeBoundaries(buf: seq<Byte>)
    ensures HasCorrectByteSize(buf, 0) <==> |buf| == 42
    ensures |buf| == 41 || |buf| == 43 ==> !HasCorrectByteSize(buf, 0)
  {
  }
}
