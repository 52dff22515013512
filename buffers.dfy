/** The parts of Node's `Buffer` that the miniSEED decoder relies on: bounds-checked
    big-endian integer reads (a read past the end throws a RangeError, modelled as
    `None`), two's-complement sign extension, bit fields of a 32-bit word,
    `toString("ascii", start, end)` and `slice(start, end)`. */
module Buffers {
  import opened Wrappers

  type uint8 = x: int | 0 <= x < 256

  function Pow2(n: nat): (r: int)
    ensures r >= 1
  {
    if n == 0 then 1 else 2 * Pow2(n - 1)
  }

  lemma {:induction false} Pow2Add(a: nat, b: nat)
    ensures Pow2(a + b) == Pow2(a) * Pow2(b)
  {
    if a > 0 {
      Pow2Add(a - 1, b);
    }
  }

  lemma Pow2Table()
    ensures Pow2(8) == 0x100 && Pow2(15) == 0x8000 && Pow2(16) == 0x1_0000
    ensures Pow2(31) == 0x8000_0000 && Pow2(32) == 0x1_0000_0000
  {
    assert Pow2(8) == 0x100;
    assert Pow2(7) == 0x80;
    Pow2Add(8, 8);
    Pow2Add(8, 7);
    Pow2Add(16, 15);
    Pow2Add(16, 16);
  }

  /** Reads `(v & (1 << (w-1))) ? v | ~mask : v` for a `w`-bit field `v`: the field's
      own top bit is its sign. */
  function SignExtend(v: int, w: nat): (r: int)
    requires 1 <= w && 0 <= v < Pow2(w)
    ensures -Pow2(w - 1) <= r < Pow2(w - 1)
    ensures r % Pow2(w) == v
  {
    var m := Pow2(w);
    assert m == 2 * Pow2(w - 1);
    if v >= Pow2(w - 1) then ModOfNegative(v - m, m); v - m else ModOfSmall(v, m); v
  }

  /** The `w` low bits of `x` as an unsigned number: what a two's-complement writer stores. */
  function ToUnsigned(x: int, w: nat): (r: int)
    ensures 0 <= r < Pow2(w)
  {
    x % Pow2(w)
  }

  lemma SignExtendRoundTrip(x: int, w: nat)
    requires 1 <= w && -Pow2(w - 1) <= x < Pow2(w - 1)
    ensures SignExtend(ToUnsigned(x, w), w) == x
  {
    var m := Pow2(w);
    assert m == 2 * Pow2(w - 1);
    if x < 0 {
      ModOfNegative(x, m);
    } else {
      ModOfSmall(x, m);
    }
  }

  lemma ModOfSmall(y: int, m: int)
    requires 0 <= y < m
    ensures y % m == y
  {
  }

  lemma ModOfNegative(y: int, m: int)
    requires 0 <= y + m < m
    ensures y % m == y + m
  {
  }

  /** Bits `shift .. shift+width-1` of `word`: `(word >> shift) & ((1 << width) - 1)`. */
  function Field(word: int, shift: nat, width: nat): (r: int)
    ensures 0 <= r < Pow2(width)
  {
    (word / Pow2(shift)) % Pow2(width)
  }

  function U8(s: seq<uint8>, off: nat): (r: Option<int>)
    ensures r.Some? <==> off + 1 <= |s|
    ensures r.Some? ==> 0 <= r.value < 256
  {
    if off + 1 <= |s| then Some(s[off]) else None
  }

  function I8(s: seq<uint8>, off: nat): (r: Option<int>)
    ensures r.Some? <==> off + 1 <= |s|
    ensures r.Some? ==> -128 <= r.value < 128
  {
    if off + 1 <= |s| then Some(SignExtend(s[off], 8)) else None
  }

  function U16(s: seq<uint8>, off: nat): (r: Option<int>)
    ensures r.Some? <==> off + 2 <= |s|
    ensures r.Some? ==> 0 <= r.value < 0x1_0000
  {
    if off + 2 <= |s| then Some(s[off] as int * 0x100 + s[off + 1]) else None
  }

  function I16(s: seq<uint8>, off: nat): (r: Option<int>)
    ensures r.Some? <==> off + 2 <= |s|
    ensures r.Some? ==> -0x8000 <= r.value < 0x8000
  {
    if off + 2 <= |s| then
      var u := U16(s, off).value;
      Some(if u >= 0x8000 then u - 0x1_0000 else u)
    else None
  }

  function U32(s: seq<uint8>, off: nat): (r: Option<int>)
    ensures r.Some? <==> off + 4 <= |s|
    ensures r.Some? ==> 0 <= r.value < 0x1_0000_0000
  {
    if off + 4 <= |s| then
      Some(((s[off] as int * 0x100 + s[off + 1]) * 0x100 + s[off + 2]) * 0x100 + s[off + 3])
    else None
  }

  function I32(s: seq<uint8>, off: nat): (r: Option<int>)
    ensures r.Some? <==> off + 4 <= |s|
    ensures r.Some? ==> -0x8000_0000 <= r.value < 0x8000_0000
  {
    if off + 4 <= |s| then
      var u := U32(s, off).value;
      Some(if u >= 0x8000_0000 then u - 0x1_0000_0000 else u)
    else None
  }

  /** `readInt32BE` is the sign extension of `readUInt32BE`. */
  lemma I32IsSignExtend(s: seq<uint8>, off: nat)
    requires off + 4 <= |s|
    ensures Pow2(32) == 0x1_0000_0000 && I32(s, off).value == SignExtend(U32(s, off).value, 32)
  {
    Pow2Table();
  }

  /** A signed 16-bit read keeps the two bytes it reads, modulo 2^16. */
  lemma I16Bits(s: seq<uint8>, off: nat)
    requires off + 2 <= |s|
    ensures I16(s, off).value % 0x1_0000 == s[off] as int * 0x100 + s[off + 1]
  {
  }

  /** A signed 32-bit read keeps the four bytes it reads, modulo 2^32. */
  lemma I32Bits(s: seq<uint8>, off: nat)
    requires off + 4 <= |s|
    ensures I32(s, off).value % 0x1_0000_0000
         == ((s[off] as int * 0x100 + s[off + 1]) * 0x100 + s[off + 2]) * 0x100 + s[off + 3]
  {
  }

  /** The four bytes a big-endian writer stores for the signed 32-bit `x`. */
  function EncodeI32(x: int): (b: seq<uint8>)
    requires -0x8000_0000 <= x < 0x8000_0000
    ensures |b| == 4
  {
    var u := if x < 0 then x + 0x1_0000_0000 else x;
    [u / 0x100_0000, (u / 0x1_0000) % 0x100, (u / 0x100) % 0x100, u % 0x100]
  }

  lemma I32RoundTrip(x: int)
    requires -0x8000_0000 <= x < 0x8000_0000
    ensures I32(EncodeI32(x), 0) == Some(x)
  {
    var u := if x < 0 then x + 0x1_0000_0000 else x;
    BigEndianDigits(u);
    assert U32(EncodeI32(x), 0) == Some(u);
  }

  lemma BigEndianDigits(u: int)
    requires 0 <= u < 0x1_0000_0000
    ensures ((u / 0x100_0000 * 0x100 + (u / 0x1_0000) % 0x100) * 0x100 + (u / 0x100) % 0x100) * 0x100 + u % 0x100 == u
  {
    var a := u / 0x100;
    var b := a / 0x100;
    assert u / 0x1_0000 == b;
    assert u / 0x100_0000 == b / 0x100;
  }

  /** Node's `buf.toString("ascii", start, end)`: the end is clamped to the buffer,
      and each byte loses its high bit before it becomes a character. */
  function Ascii(s: seq<uint8>, start: nat, end: nat): (r: string)
    ensures |r| == if start <= end && start <= |s| then (if end <= |s| then end else |s|) - start else 0
    ensures forall i :: 0 <= i < |r| ==> r[i] as int == s[start + i] % 128
  {
    var e := if end <= |s| then end else |s|;
    if start <= e then seq(e - start, i requires 0 <= i < e - start => (s[start + i] % 128) as char)
    else []
  }

  /** `new Buffer(text, "ascii")`: each character keeps its low eight bits. */
  function AsciiBytes(text: string): (b: seq<uint8>)
    ensures |b| == |text|
    ensures forall i :: 0 <= i < |b| ==> b[i] == text[i] as int % 256
  {
    seq(|text|, i requires 0 <= i < |text| => text[i] as int % 256)
  }

  predicate IsAscii(text: string) {
    forall i :: 0 <= i < |text| ==> text[i] as int < 128
  }

  lemma AsciiRoundTrip(text: string)
    requires IsAscii(text)
    ensures Ascii(AsciiBytes(text), 0, |text|) == text
  {
    var r := Ascii(AsciiBytes(text), 0, |text|);
    assert forall i :: 0 <= i < |r| ==> r[i] == text[i];
  }

  /** A `Buffer.slice` (typed-array `subarray`) bound: a negative index counts from the end,
      and both are clamped to the buffer. */
  function SliceIndex(i: int, len: nat): (r: nat)
    ensures r <= len
  {
    if i < 0 then (if len + i < 0 then 0 else len + i) else if i <= len then i else len
  }

  /** How a bound resolves: an index within the buffer is kept, one past the end is
      clamped to the length, a negative one counts back from the end, and one before the
      front is clamped to 0. */
  lemma SliceIndexResolves(i: int, len: nat)
    ensures 0 <= i <= len ==> SliceIndex(i, len) == i
    ensures i > len ==> SliceIndex(i, len) == len
    ensures i < 0 && 0 <= len + i ==> SliceIndex(i, len) == len + i
    ensures len + i < 0 ==> SliceIndex(i, len) == 0
  {
  }

  /** `buf.slice(start, end)`: the bytes between the two bounds once both are resolved,
      and nothing when they cross. */
  function Slice(s: seq<uint8>, start: int, end: int): (r: seq<uint8>)
    ensures 0 <= start <= end <= |s| ==> r == s[start..end]
    ensures SliceIndex(end, |s|) <= SliceIndex(start, |s|) ==> r == []
    ensures SliceIndex(start, |s|) <= SliceIndex(end, |s|) ==> r == s[SliceIndex(start, |s|)..SliceIndex(end, |s|)]
  {
    var b := SliceIndex(start, |s|);
    var e := SliceIndex(end, |s|);
    if b <= e then s[b..e] else []
  }

  /** A negative end counts back from the end of the buffer (an end of 0 is not negative:
      it ends the slice at the front). */
  lemma SliceFromEnd(s: seq<uint8>, start: nat, k: nat)
    requires 1 <= k && start + k <= |s|
    ensures Slice(s, start, -(k as int)) == s[start..|s| - k]
  {
  }

  /** An end at or below minus the buffer's length (such as the record length -2^31 that
      `1 << 31` gives) leaves nothing to slice. */
  lemma SliceBeforeStart(s: seq<uint8>, start: int, end: int)
    requires end + |s| <= 0
    ensures Slice(s, start, end) == []
  {
  }
}
