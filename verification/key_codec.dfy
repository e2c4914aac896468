/** The message key carries the message index as a 32-bit little-endian
    integer. The consumer reads it back with a little-endian ByteBuffer
    `getInt()`: the first four bytes, read as a signed two's-complement value;
    a key shorter than four bytes raises a buffer underflow. */
module KeyCodec {
  import opened Common

  newtype Byte = b: int | 0 <= b < 256

  datatype KeyError = BufferUnderflow

  /** Width in bytes of the index carried by a key. */
  const INDEX_BYTES: nat := 4

  function Pow256(n: nat): (p: nat)
    ensures p >= 1
  {
    if n == 0 then 1 else 256 * Pow256(n - 1)
  }

  /** The unsigned value of `bs`, least significant byte first. */
  function FromLittleEndian(bs: seq<Byte>): (v: nat)
    ensures v < Pow256(|bs|)
  {
    if bs == [] then 0 else bs[0] as int + 256 * FromLittleEndian(bs[1..])
  }

  /** The `n` bytes of `v`, least significant byte first. */
  function ToLittleEndian(v: nat, n: nat): (bs: seq<Byte>)
    requires v < Pow256(n)
    ensures |bs| == n
  {
    if n == 0 then [] else [(v % 256) as Byte] + ToLittleEndian(v / 256, n - 1)
  }

  lemma {:induction false} FromToLittleEndian(v: nat, n: nat)
    requires v < Pow256(n)
    ensures FromLittleEndian(ToLittleEndian(v, n)) == v
  {
    if n > 0 {
      FromToLittleEndian(v / 256, n - 1);
      var bs := ToLittleEndian(v, n);
      assert bs[1..] == ToLittleEndian(v / 256, n - 1);
    }
  }

  lemma {:induction false} ToFromLittleEndian(bs: seq<Byte>)
    ensures ToLittleEndian(FromLittleEndian(bs), |bs|) == bs
  {
    if bs != [] {
      ToFromLittleEndian(bs[1..]);
      var v := FromLittleEndian(bs);
      assert v % 256 == bs[0] as int;
      assert v / 256 == FromLittleEndian(bs[1..]);
    }
  }

  /** Appending a byte adds it at the next power of 256. */
  lemma {:induction false} FromLittleEndianAppend(bs: seq<Byte>, b: Byte)
    ensures FromLittleEndian(bs + [b]) == FromLittleEndian(bs) + Pow256(|bs|) * b as int
  {
    if bs != [] {
      var tail := bs[1..];
      assert (bs + [b])[1..] == tail + [b];
      FromLittleEndianAppend(tail, b);
      var rest, p, c := FromLittleEndian(tail), Pow256(|tail|), b as int;
      assert FromLittleEndian(bs + [b]) == bs[0] as int + 256 * (rest + p * c);
      assert Pow256(|bs|) == 256 * p;
      Distribute(rest, p, c);
    }
  }

  lemma Distribute(rest: int, p: int, c: int)
    ensures 256 * (rest + p * c) == 256 * rest + (256 * p) * c
  {
  }

  lemma Pow256Of4()
    ensures Pow256(INDEX_BYTES) == 0x1_0000_0000
  {
    assert Pow256(2) == 0x1_0000;
  }

  predicate IsInt32(v: int)
  {
    -0x8000_0000 <= v < 0x8000_0000
  }

  /** The message index in `key`, as the consumer decodes it. */
  function DecodeIndex(key: seq<Byte>): (r: Result<int, KeyError>)
    ensures r.Ok? <==> |key| >= INDEX_BYTES
    ensures r.Ok? ==> IsInt32(r.value)
    ensures r.Ok? ==> (r.value >= 0 <==> key[INDEX_BYTES - 1] < 0x80)
  {
    if |key| < INDEX_BYTES then Err(BufferUnderflow)
    else
      Pow256Of4();
      var u := FromLittleEndian(key[..INDEX_BYTES]);
      assert u == FromLittleEndian(key[..3]) + 0x100_0000 * key[3] as int by {
        assert key[..INDEX_BYTES] == key[..3] + [key[3]];
        FromLittleEndianAppend(key[..3], key[3]);
        assert Pow256(3) == 0x100_0000;
      }
      Ok(if u < 0x8000_0000 then u else u - 0x1_0000_0000)
  }

  /** The four-byte key layout for `v`: the inverse of `DecodeIndex`. */
  function EncodeIndex(v: int): (key: seq<Byte>)
    requires IsInt32(v)
    ensures |key| == INDEX_BYTES
  {
    Pow256Of4();
    ToLittleEndian(if v >= 0 then v else v + 0x1_0000_0000, INDEX_BYTES)
  }

  /** Decoding a key written for `v` gives `v` back, whatever follows the first four bytes. */
  lemma DecodeEncodeIndex(v: int, rest: seq<Byte>)
    requires IsInt32(v)
    ensures DecodeIndex(EncodeIndex(v) + rest) == Ok(v)
  {
    Pow256Of4();
    var u := if v >= 0 then v else v + 0x1_0000_0000;
    var key := EncodeIndex(v) + rest;
    assert key[..INDEX_BYTES] == ToLittleEndian(u, INDEX_BYTES);
    FromToLittleEndian(u, INDEX_BYTES);
  }

  /** Every four-byte key is the encoding of the index it decodes to. */
  lemma EncodeDecodeIndex(key: seq<Byte>)
    requires |key| == INDEX_BYTES
    ensures DecodeIndex(key).Ok? && EncodeIndex(DecodeIndex(key).value) == key
  {
    Pow256Of4();
    assert key[..INDEX_BYTES] == key;
    ToFromLittleEndian(key);
  }
}
