// The redo journal of a snapshot install: its format.
module Journal {
  import opened Logs
  import opened Bytes

  const MAXIMUM_BYTES: nat := 128 * 1024 * 1024
  const HEADER_BYTES: nat := 32
  // "CHOSTXN1"
  const MAGIC: Blob := [67, 72, 79, 83, 84, 88, 78, 49]

  type U64 = n: nat | n < 0x1_0000_0000_0000_0000

  // The three replacement images and the index they install.
  datatype Transaction = Transaction(index: U64, snapshot: Blob, metadata: Blob, wal: Blob)

  predicate Encodable(v: Transaction) {
    v.index != 0 && v.snapshot != [] && v.metadata != [] && v.wal != [] &&
    |v.snapshot| + |v.metadata| + |v.wal| <= MAXIMUM_BYTES - HEADER_BYTES - 4
  }

  function Start(index: U64): (h: Blob)
    ensures |h| == 20
  {
    MAGIC + LE(1, 4) + LE(index, 8)
  }

  function Lengths(a: nat, b: nat, c: nat): (h: Blob)
    ensures |h| == 12
  {
    LE(a, 4) + LE(b, 4) + LE(c, 4)
  }

  function Header(index: U64, a: nat, b: nat, c: nat): (h: Blob)
    ensures |h| == HEADER_BYTES
  {
    Start(index) + Lengths(a, b, c)
  }

  function Body(v: Transaction): Blob {
    Header(v.index, |v.snapshot|, |v.metadata|, |v.wal|) + v.snapshot + v.metadata + v.wal
  }

  function Encode(crc: Checksum, v: Transaction): Option<Blob> {
    if Encodable(v) then Some(Body(v) + LE(crc(Body(v)), 4)) else None
  }

  // One length-prefixed image: nonempty and within what is left.
  predicate PartFits(b: Blob, cursor: nat, length: nat) {
    length != 0 && cursor + length <= |b| - 4
  }

  function Decode(crc: Checksum, b: Blob): Option<Transaction> {
    if |b| < HEADER_BYTES + 4 || |b| > MAXIMUM_BYTES then None
    else if b[..8] != MAGIC || FromLE(b[8..12]) != 1 || FromLE(b[12..20]) == 0 ||
            FromLE(b[12..20]) >= 0x1_0000_0000_0000_0000 || crc(b[..|b| - 4]) != FromLE(b[|b| - 4..]) then None
    else
      var n1, n2, n3 := FromLE(b[20..24]), FromLE(b[24..28]), FromLE(b[28..32]);
      var c1, c2, c3 := HEADER_BYTES + n1, HEADER_BYTES + n1 + n2, HEADER_BYTES + n1 + n2 + n3;
      if !PartFits(b, HEADER_BYTES, n1) || !PartFits(b, c1, n2) || !PartFits(b, c2, n3) || c3 != |b| - 4 then None
      else Some(Transaction(FromLE(b[12..20]), b[HEADER_BYTES..c1], b[c1..c2], b[c2..c3]))
  }

  lemma StartFields(index: U64)
    ensures Start(index)[..8] == MAGIC && Start(index)[8..12] == LE(1, 4) && Start(index)[12..20] == LE(index, 8)
  {
    hide LE;
  }

  lemma LengthFields(a: nat, b: nat, c: nat)
    ensures Lengths(a, b, c)[0..4] == LE(a, 4) && Lengths(a, b, c)[4..8] == LE(b, 4) && Lengths(a, b, c)[8..12] == LE(c, 4)
  {
    hide LE;
  }

  // The fields of a header, read back by position.
  lemma HeaderFields(h: Blob, index: U64, a: nat, b: nat, c: nat)
    requires h == Header(index, a, b, c)
    ensures h[..8] == MAGIC && h[8..12] == LE(1, 4) && h[12..20] == LE(index, 8)
    ensures h[20..24] == LE(a, 4) && h[24..28] == LE(b, 4) && h[28..32] == LE(c, 4)
  {
    hide LE, Start, Lengths;
    StartFields(index);
    LengthFields(a, b, c);
    Prefixed(Start(index), Lengths(a, b, c), 0, 8);
    Prefixed(Start(index), Lengths(a, b, c), 8, 12);
    Prefixed(Start(index), Lengths(a, b, c), 12, 20);
    Suffixed(Start(index), Lengths(a, b, c), 0, 4);
    Suffixed(Start(index), Lengths(a, b, c), 4, 8);
    Suffixed(Start(index), Lengths(a, b, c), 8, 12);
  }

  lemma Suffixed(h: Blob, rest: Blob, i: nat, j: nat)
    requires i <= j <= |rest|
    ensures (h + rest)[|h| + i..|h| + j] == rest[i..j]
  {}

  // A blob that starts with h has h's fields.
  lemma Prefixed(h: Blob, rest: Blob, i: nat, j: nat)
    requires i <= j <= |h|
    ensures (h + rest)[i..j] == h[i..j]
  {}

  lemma SmallField(v: nat)
    requires v <= MAXIMUM_BYTES
    ensures FromLE(LE(v, 4)) == v
  {
    Widths();
    WriteRead(v, 4);
  }

  lemma {:induction false} LEByteBound(v: nat)
    requires v < 0x1_0000_0000_0000_0000
    ensures FromLE(LE(v, 8)) == v
  {
    Widths();
    WriteRead(v, 8);
  }

  // The header of an encoded transaction reads back.
  lemma EncodedHeader(v: Transaction, rest: Blob)
    requires Encodable(v)
    ensures
      var b := Header(v.index, |v.snapshot|, |v.metadata|, |v.wal|) + rest;
      |b| >= HEADER_BYTES && b[..8] == MAGIC && FromLE(b[8..12]) == 1 && FromLE(b[12..20]) == v.index &&
      FromLE(b[20..24]) == |v.snapshot| && FromLE(b[24..28]) == |v.metadata| && FromLE(b[28..32]) == |v.wal|
  {
    hide Header, LE, FromLE;
    var h := Header(v.index, |v.snapshot|, |v.metadata|, |v.wal|);
    HeaderFields(h, v.index, |v.snapshot|, |v.metadata|, |v.wal|);
    Prefixed(h, rest, 0, 8);
    Prefixed(h, rest, 8, 12);
    Prefixed(h, rest, 12, 20);
    Prefixed(h, rest, 20, 24);
    Prefixed(h, rest, 24, 28);
    Prefixed(h, rest, 28, 32);
    SmallField(1);
    LEByteBound(v.index);
    SmallField(|v.snapshot|);
    SmallField(|v.metadata|);
    SmallField(|v.wal|);
  }

  lemma EncodedParts(v: Transaction, tail: Blob)
    requires Encodable(v) && |tail| == 4
    ensures
      var b := Body(v) + tail;
      var c1 := HEADER_BYTES + |v.snapshot|;
      var c2 := c1 + |v.metadata|;
      |b| == c2 + |v.wal| + 4 && b[HEADER_BYTES..c1] == v.snapshot && b[c1..c2] == v.metadata &&
      b[c2..c2 + |v.wal|] == v.wal && b[..|b| - 4] == Body(v) && b[|b| - 4..] == tail
  {
    hide Header;
    var h := Header(v.index, |v.snapshot|, |v.metadata|, |v.wal|);
    var b := Body(v) + tail;
    assert b == h + v.snapshot + v.metadata + v.wal + tail;
  }

  // Whatever is encoded decodes to the same transaction.
  lemma DecodeEncode(crc: Checksum, v: Transaction)
    requires Encodable(v)
    ensures Decode(crc, Encode(crc, v).value) == Some(v)
  {
    hide Header, LE, FromLE, Body;
    var tail := LE(crc(Body(v)), 4);
    var b := Body(v) + tail;
    EncodedParts(v, tail);
    BodySplit(v, tail);
    EncodedHeader(v, v.snapshot + v.metadata + v.wal + tail);
    Widths();
    WriteRead(crc(Body(v)), 4);
  }

  lemma BodySplit(v: Transaction, tail: Blob)
    ensures Body(v) + tail == Header(v.index, |v.snapshot|, |v.metadata|, |v.wal|) + (v.snapshot + v.metadata + v.wal + tail)
  {}

  lemma SameField(b: Blob, i: nat, j: nat)
    requires i <= j <= |b|
    ensures LE(FromLE(b[i..j]), j - i) == b[i..j]
  {
    ReadWrite(b[i..j]);
  }

  // Every byte of the header is determined by the fields read from it.
  lemma DecodedHeader(b: Blob)
    requires |b| >= HEADER_BYTES && b[..8] == MAGIC && FromLE(b[8..12]) == 1
    requires FromLE(b[12..20]) < 0x1_0000_0000_0000_0000
    ensures Header(FromLE(b[12..20]), FromLE(b[20..24]), FromLE(b[24..28]), FromLE(b[28..32])) == b[..HEADER_BYTES]
  {
    hide LE, FromLE;
    SameField(b, 8, 12);
    SameField(b, 12, 20);
    SameField(b, 20, 24);
    SameField(b, 24, 28);
    SameField(b, 28, 32);
    assert b[..HEADER_BYTES] == b[..8] + b[8..12] + b[12..20] + b[20..24] + b[24..28] + b[28..32];
  }

  // Whatever decodes is the one encoding of its transaction.
  lemma EncodeDecode(crc: Checksum, b: Blob)
    requires Decode(crc, b).Some?
    ensures Encode(crc, Decode(crc, b).value) == Some(b)
  {
    hide Header, LE, FromLE;
    var v := Decode(crc, b).value;
    var n := |b| - 4;
    DecodedHeader(b);
    SameField(b, n, |b|);
    var c1 := HEADER_BYTES + |v.snapshot|;
    var c2 := c1 + |v.metadata|;
    assert b[..n] == b[..HEADER_BYTES] + b[HEADER_BYTES..c1] + b[c1..c2] + b[c2..n];
    assert Body(v) == b[..n];
    assert b[n..|b|] == b[n..];
    assert LE(crc(Body(v)), 4) == b[n..];
    assert b == b[..n] + b[n..];
  }
}
