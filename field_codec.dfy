/**
 * The primitive field codecs the response layouts are built from: an unsigned
 * byte, an unsigned little-endian 16-bit integer and a fixed run of bytes.
 * Decoding reads at a cursor and returns the value with the advanced cursor;
 * running out of bytes is a truncation error.
 */
module FieldCodec {
  import opened Wrappers

  type Byte = x: int | 0 <= x < 0x100
  type U16 = x: int | 0 <= x < 0x1_0000

  /** Not enough bytes remain at `offset` for a field of `needed` bytes. */
  datatype CodecError = Truncated(offset: nat, needed: nat, available: nat)

  function EncodeU8(v: Byte): seq<Byte> { [v] }

  /** Low byte first. */
  function EncodeU16LE(v: U16): (r: seq<Byte>)
    ensures |r| == 2 && r[0] as int + 0x100 * (r[1] as int) == v
  {
    [v % 0x100, v / 0x100]
  }

  function DecodeU8(b: seq<Byte>, at: nat): (r: Result<(Byte, nat), CodecError>)
    ensures r.Ok? <==> at + 1 <= |b|
    ensures r.Ok? ==> r.value.1 == at + 1 && EncodeU8(r.value.0) == b[at..at + 1]
  {
    if at + 1 <= |b| then Ok((b[at], at + 1)) else Err(Truncated(at, 1, |b|))
  }

  function DecodeU16LE(b: seq<Byte>, at: nat): (r: Result<(U16, nat), CodecError>)
    ensures r.Ok? <==> at + 2 <= |b|
    ensures r.Ok? ==> r.value.1 == at + 2 && EncodeU16LE(r.value.0) == b[at..at + 2]
  {
    if at + 2 <= |b| then
      var v: int := b[at] as int + 0x100 * (b[at + 1] as int);
      assert v % 0x100 == b[at] && v / 0x100 == b[at + 1];
      Ok((v, at + 2))
    else
      Err(Truncated(at, 2, |b|))
  }

  /** Reads exactly `n` bytes as they are. */
  function DecodeBytes(b: seq<Byte>, at: nat, n: nat): (r: Result<(seq<Byte>, nat), CodecError>)
    ensures r.Ok? <==> at + n <= |b|
    ensures r.Ok? ==> r.value == (b[at..at + n], at + n)
  {
    if at + n <= |b| then Ok((b[at..at + n], at + n)) else Err(Truncated(at, n, |b|))
  }

  /** Decoding the two bytes a value encodes to gives the value back. */
  lemma DecodeEncodeU16LE(b: seq<Byte>, at: nat, v: U16)
    requires at + 2 <= |b| && b[at..at + 2] == EncodeU16LE(v)
    ensures DecodeU16LE(b, at) == Ok((v, at + 2))
  {
    assert b[at] == EncodeU16LE(v)[0] && b[at + 1] == EncodeU16LE(v)[1];
  }

  /** Decoding the byte a value encodes to gives the value back. */
  lemma DecodeEncodeU8(b: seq<Byte>, at: nat, v: Byte)
    requires at + 1 <= |b| && b[at..at + 1] == EncodeU8(v)
    ensures DecodeU8(b, at) == Ok((v, at + 1))
  {
    assert b[at] == b[at..at + 1][0];
  }

  /** A fixed run read where it was placed comes back unchanged, whatever surrounds it. */
  lemma DecodeEncodeBytes(pre: seq<Byte>, s: seq<Byte>, post: seq<Byte>)
    ensures DecodeBytes(pre + s + post, |pre|, |s|) == Ok((s, |pre| + |s|))
  {
    assert (pre + s + post)[|pre|..|pre| + |s|] == s;
  }
}
