/**
 * Raw memory as the renderer's packed file formats see it: bytes, 32-bit
 * unsigned integers stored in little-endian order (the engine copies packed
 * structs with memcpy in host order; the model fixes one order), and lists
 * of fixed-size records whose inner layout is not interpreted.
 */
module Bytes {

  type u8 = x: int | 0 <= x < 0x100
  type u16 = x: int | 0 <= x < 0x1_0000
  type u32 = x: int | 0 <= x < 0x1_0000_0000

  /** The value of Renderer::getInvalid<uint32_t>(): the largest 32-bit value. */
  const INVALID_U32: u32 := 0xFFFF_FFFF

  predicate IsValid(x: u32) { x != INVALID_U32 }

  /** The four bytes of `x`, least significant first. */
  function EncodeU32(x: u32): (r: seq<u8>)
    ensures |r| == 4
  {
    [x % 0x100, (x / 0x100) % 0x100, (x / 0x1_0000) % 0x100, x / 0x100_0000]
  }

  /** The value stored in `b[pos..pos + 4]`. */
  function DecodeU32(b: seq<u8>, pos: nat): (x: u32)
    requires pos + 4 <= |b|
  {
    (b[pos] as int) + 0x100 * (b[pos + 1] as int) + 0x1_0000 * (b[pos + 2] as int) + 0x100_0000 * (b[pos + 3] as int)
  }

  lemma DecodeEncodeU32(x: u32, rest: seq<u8>, prefix: seq<u8>)
    ensures DecodeU32(prefix + EncodeU32(x) + rest, |prefix|) == x
  {
    var b := prefix + EncodeU32(x) + rest;
    var p := |prefix|;
    assert b[p] == x % 0x100 && b[p + 1] == (x / 0x100) % 0x100;
    assert b[p + 2] == (x / 0x1_0000) % 0x100 && b[p + 3] == x / 0x100_0000;
    var q1 := x / 0x100;
    var q2 := x / 0x1_0000;
    assert q2 == q1 / 0x100;
    assert x == x % 0x100 + 0x100 * q1;
    assert q1 == q1 % 0x100 + 0x100 * q2;
    assert q2 == q2 % 0x100 + 0x100 * (x / 0x100_0000);
  }

  lemma EncodeDecodeU32(b: seq<u8>, pos: nat)
    requires pos + 4 <= |b|
    ensures EncodeU32(DecodeU32(b, pos)) == b[pos..pos + 4]
  {
    var x := DecodeU32(b, pos);
    var hi: int := (b[pos + 1] as int) + 0x100 * (b[pos + 2] as int) + 0x1_0000 * (b[pos + 3] as int);
    assert x == (b[pos] as int) + 0x100 * hi;
    assert x % 0x100 == b[pos] && x / 0x100 == hi;
    var hi2: int := (b[pos + 2] as int) + 0x100 * (b[pos + 3] as int);
    assert hi == (b[pos + 1] as int) + 0x100 * hi2;
    assert x / 0x1_0000 == hi / 0x100 == hi2;
    assert x / 0x100_0000 == hi2 / 0x100 == b[pos + 3];
  }

  /** Reading from a copied-out range is reading from the original. */
  lemma DecodeU32Slice(b: seq<u8>, lo: nat, hi: nat, pos: nat)
    requires lo <= pos && pos + 4 <= hi <= |b|
    ensures DecodeU32(b[lo..hi], pos - lo) == DecodeU32(b, pos)
  {
    var s := b[lo..hi];
    assert s[pos - lo] == b[pos] && s[pos - lo + 1] == b[pos + 1];
    assert s[pos - lo + 2] == b[pos + 2] && s[pos - lo + 3] == b[pos + 3];
  }

  /** The 32-bit values `xs` stored one after another, as a C array of uint32_t is. */
  function EncodeU32s(xs: seq<u32>): (r: seq<u8>)
    ensures |r| == 4 * |xs|
  {
    if xs == [] then [] else EncodeU32s(xs[..|xs| - 1]) + EncodeU32(xs[|xs| - 1])
  }

  /** Reading back from a prefix of a longer byte string. */
  lemma DecodeU32Prefix(a: seq<u8>, b: seq<u8>, pos: nat)
    requires pos + 4 <= |a|
    ensures DecodeU32(a + b, pos) == DecodeU32(a, pos)
  {
    assert (a + b)[pos..pos + 4] == a[pos..pos + 4];
    DecodeU32Slice(a + b, 0, |a|, pos);
    assert (a + b)[0..|a|] == a;
  }

  /** Element `i` of the array is read back from byte offset 4 * i. */
  lemma {:induction false} DecodeEncodeU32s(xs: seq<u32>, i: nat)
    requires i < |xs|
    ensures 4 * i + 4 <= |EncodeU32s(xs)|
    ensures DecodeU32(EncodeU32s(xs), 4 * i) == xs[i]
    decreases |xs|
  {
    var init := xs[..|xs| - 1];
    assert EncodeU32s(xs) == EncodeU32s(init) + EncodeU32(xs[|xs| - 1]);
    if i < |xs| - 1 {
      DecodeEncodeU32s(init, i);
      DecodeU32Prefix(EncodeU32s(init), EncodeU32(xs[|xs| - 1]), 4 * i);
    } else {
      DecodeEncodeU32(xs[i], [], EncodeU32s(init));
      assert EncodeU32s(init) + EncodeU32(xs[i]) + [] == EncodeU32s(xs);
    }
  }

  /** `count` consecutive records of `size` bytes each, starting at `pos`. */
  function DecodeRecords(b: seq<u8>, pos: nat, count: nat, size: nat): (r: seq<seq<u8>>)
    requires pos + count * size <= |b|
    ensures |r| == count
    ensures forall i :: 0 <= i < count ==> |r[i]| == size
    decreases count
  {
    if count == 0 then []
    else
      assert pos + size + (count - 1) * size == pos + count * size;
      [b[pos..pos + size]] + DecodeRecords(b, pos + size, count - 1, size)
  }

  function EncodeRecords(records: seq<seq<u8>>): (r: seq<u8>)
  {
    if records == [] then [] else records[0] + EncodeRecords(records[1..])
  }

  predicate AllOfSize(records: seq<seq<u8>>, size: nat)
  {
    forall i :: 0 <= i < |records| ==> |records[i]| == size
  }

  lemma {:induction false} EncodeRecordsLength(records: seq<seq<u8>>, size: nat)
    requires AllOfSize(records, size)
    ensures |EncodeRecords(records)| == |records| * size
  {
    if records != [] {
      EncodeRecordsLength(records[1..], size);
    }
  }

  /** Records written one after another are read back one by one. */
  lemma {:induction false} DecodeEncodeRecords(records: seq<seq<u8>>, size: nat, prefix: seq<u8>, rest: seq<u8>)
    requires AllOfSize(records, size)
    ensures |prefix| + |records| * size <= |prefix + EncodeRecords(records) + rest|
    ensures DecodeRecords(prefix + EncodeRecords(records) + rest, |prefix|, |records|, size) == records
    decreases |records|
  {
    EncodeRecordsLength(records, size);
    if records != [] {
      var b := prefix + EncodeRecords(records) + rest;
      assert EncodeRecords(records) == records[0] + EncodeRecords(records[1..]);
      assert b == (prefix + records[0]) + EncodeRecords(records[1..]) + rest;
      DecodeEncodeRecords(records[1..], size, prefix + records[0], rest);
      assert b[|prefix|..|prefix| + size] == records[0];
    }
  }
}
