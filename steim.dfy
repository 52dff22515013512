/** Steim1 and Steim2 decompression (SEED Reference Manual v2.4, appendix B) as
    `UnpackSTEIM1` and `UnpackSTEIM2` in `lib/libmseedjs/record.js` perform it. */
module Steim {
  import opened Wrappers
  import opened Buffers
  import opened MSeedHeader

  datatype Level = Steim1 | Steim2

  /** The 32-bit words of a 64-byte frame; word 0 is the control word. */
  const WordsPerFrame: nat := 16

  /** Frames visited: `nFrames || data.length / 64`, the loop running while `i < nFrames`,
      so a missing or zero blockette-1001 count visits every started 64-byte frame. */
  function FrameCount(nFrames: Option<uint8>, len: nat): (r: nat)
    ensures nFrames.Some? && nFrames.value != 0 ==> r == nFrames.value
    ensures (nFrames.None? || nFrames.value == 0) ==> r * 64 >= len > (r - 1) * 64
  {
    if nFrames.Some? && nFrames.value != 0 then nFrames.value else (len + 63) / 64
  }

  /** Nibble `j` of a control word: `(w0 >> ((16 - j - 1) * 2)) & 0x03`. Dafny's `/` by a
      power of two rounds down like `>>`, so this also holds for a negative `w0`. */
  function Nibble(w0: int, j: nat): (r: int)
    requires j < WordsPerFrame
    ensures 0 <= r < 4
  {
    Field(w0, 30 - 2 * j, 2)
  }

  /** Field `k` of `count` fields of `width` bits packed in `wn`, the first in the highest
      bits: `(wn >> ((count - k - 1) * width)) & mask`, then sign-extended. */
  function SubField(wn: int, count: nat, width: nat, k: nat): (r: int)
    requires 1 <= width && k < count
    ensures -Pow2(width - 1) <= r < Pow2(width - 1)
    ensures r % Pow2(width) == Field(wn, Shift(count, width, k), width)
  {
    SignExtend(Field(wn, Shift(count, width, k), width), width)
  }

  /** Where field `k` of `count` fields of `width` bits starts, counting from bit 0. */
  function Shift(count: nat, width: nat, k: nat): nat
    requires k < count
  {
    (count - k - 1) * width
  }

  function Packed(wn: int, count: nat, width: nat): (r: seq<int>)
    requires 1 <= width
    ensures |r| == count
    ensures forall k :: 0 <= k < count ==> r[k] == SubField(wn, count, width, k)
  {
    seq(count, k requires 0 <= k < count => SubField(wn, count, width, k))
  }

  /** Four signed bytes, as four `readInt8` calls. */
  function Bytes8(data: seq<uint8>, at: nat): (r: Result<seq<int>, DecodeError>)
    ensures r.Ok? <==> at + 4 <= |data|
    ensures r.Ok? ==> |r.value| == 4 && forall k :: 0 <= k < 4 ==> r.value[k] == SignExtend(data[at + k], 8)
  {
    if at + 4 <= |data| then Ok(seq(4, k requires 0 <= k < 4 => SignExtend(data[at + k], 8)))
    else Err(RangeError)
  }

  /** The differences one data word at `at` contributes, given its nibble. */
  function WordDiffs(level: Level, data: seq<uint8>, at: nat, nibble: int): (r: Result<seq<int>, DecodeError>)
    ensures nibble == 0 ==> r == Ok([])
    ensures nibble == 1 ==> r == Bytes8(data, at)
    ensures r.Err? && r.error == RangeError ==> at + 4 > |data|
  {
    if nibble == 0 then Ok([])
    else if nibble == 1 then Bytes8(data, at)
    else if level == Steim1 then
      if nibble == 2 then
        var a :- Read(I16(data, at));
        var b :- Read(I16(data, at + 2));
        Ok([a, b])
      else if nibble == 3 then
        var a :- Read(I32(data, at));
        Ok([a])
      else Ok([])
    else if nibble == 2 || nibble == 3 then
      var wn :- Read(I32(data, at));
      var decodeNibble := Field(wn, 30, 2);
      if nibble == 2 then
        if decodeNibble == 1 then Ok(Packed(wn, 1, 30))
        else if decodeNibble == 2 then Ok(Packed(wn, 2, 15))
        else if decodeNibble == 3 then Ok(Packed(wn, 3, 10))
        else Err(UnknownDecodeNibble)
      else
        if decodeNibble == 0 then Ok(Packed(wn, 5, 6))
        else if decodeNibble == 1 then Ok(Packed(wn, 6, 5))
        else if decodeNibble == 2 then Ok(Packed(wn, 7, 4))
        else Err(UnknownDecodeNibble)
    else Ok([])
  }

  /** The differences of words `0..count` of the frame at `base`, in order. */
  function WordsDiffs(level: Level, data: seq<uint8>, base: nat, w0: int, count: nat): Result<seq<int>, DecodeError>
    requires count <= WordsPerFrame
  {
    if count == 0 then Ok([])
    else
      var before :- WordsDiffs(level, data, base, w0, count - 1);
      var d :- WordDiffs(level, data, base + (count - 1) * 4, Nibble(w0, count - 1));
      Ok(before + d)
  }

  /** The differences of frames `0..count`, in order; each frame starts with its control
      word `w0`. */
  function FramesDiffs(level: Level, data: seq<uint8>, count: nat): Result<seq<int>, DecodeError> {
    if count == 0 then Ok([])
    else
      var before :- FramesDiffs(level, data, count - 1);
      var w0 :- Read(I32(data, (count - 1) * 64));
      var d :- WordsDiffs(level, data, (count - 1) * 64, w0, WordsPerFrame);
      Ok(before + d)
  }

  /** The frame loop: every frame's control word, then its 16 words in order. */
  method ReadDifferences(level: Level, data: seq<uint8>, nFrames: nat) returns (r: Result<seq<int>, DecodeError>)
    ensures r == FramesDiffs(level, data, nFrames)
  {
    var diff: seq<int> := [];
    for i := 0 to nFrames
      invariant FramesDiffs(level, data, i) == Ok(diff)
    {
      var control := Read(I32(data, i * 64));
      FramesStep(level, data, i);
      if control.Err? {
        FramesErrorStays(level, data, i + 1, nFrames);
        return Err(control.error);
      }
      var frame := ReadFrame(level, data, i * 64, control.value);
      if frame.Err? {
        FramesErrorStays(level, data, i + 1, nFrames);
        return Err(frame.error);
      }
      diff := diff + frame.value;
    }
    r := Ok(diff);
  }

  /** The word loop of one frame: the 16 nibbles of `w0`, most significant first. */
  method ReadFrame(level: Level, data: seq<uint8>, base: nat, w0: int) returns (r: Result<seq<int>, DecodeError>)
    ensures r == WordsDiffs(level, data, base, w0, WordsPerFrame)
  {
    var diff: seq<int> := [];
    for j := 0 to WordsPerFrame
      invariant WordsDiffs(level, data, base, w0, j) == Ok(diff)
    {
      var d := WordDiffs(level, data, base + j * 4, Nibble(w0, j));
      WordsStep(level, data, base, w0, j);
      if d.Err? {
        WordsErrorStays(level, data, base, w0, j + 1, WordsPerFrame);
        return Err(d.error);
      }
      diff := diff + d.value;
    }
    r := Ok(diff);
  }

  lemma WordsStep(level: Level, data: seq<uint8>, base: nat, w0: int, j: nat)
    requires j < WordsPerFrame
    ensures var d := WordDiffs(level, data, base + j * 4, Nibble(w0, j));
            WordsDiffs(level, data, base, w0, j + 1)
            == match WordsDiffs(level, data, base, w0, j)
               case Err(e) => Err(e)
               case Ok(before) => if d.Err? then Err(d.error) else Ok(before + d.value)
  {
    assert base + (j + 1 - 1) * 4 == base + j * 4;
  }

  lemma FramesStep(level: Level, data: seq<uint8>, i: nat)
    ensures var w0 := Read(I32(data, i * 64));
            FramesDiffs(level, data, i + 1)
            == match FramesDiffs(level, data, i)
               case Err(e) => Err(e)
               case Ok(before) =>
                 if w0.Err? then Err(w0.error)
                 else
                   var d := WordsDiffs(level, data, i * 64, w0.value, WordsPerFrame);
                   if d.Err? then Err(d.error) else Ok(before + d.value)
  {
  }

  lemma WordsErrorStep(level: Level, data: seq<uint8>, base: nat, w0: int, j: nat)
    requires j < WordsPerFrame && WordsDiffs(level, data, base, w0, j).Err?
    ensures WordsDiffs(level, data, base, w0, j + 1) == WordsDiffs(level, data, base, w0, j)
  {
  }

  lemma FramesErrorStep(level: Level, data: seq<uint8>, i: nat)
    requires FramesDiffs(level, data, i).Err?
    ensures FramesDiffs(level, data, i + 1) == FramesDiffs(level, data, i)
  {
  }

  /** In a chain of results where each step keeps an error it is given, an error
      reached at `a` is still the result at `b`. */
  lemma {:induction false} ErrorKept(f: nat -> Result<seq<int>, DecodeError>, a: nat, b: nat)
    requires a <= b && f(a).Err?
    requires forall i :: a <= i < b && f(i).Err? ==> f(i + 1) == f(i)
    ensures f(b) == f(a)
    decreases b
  {
    if a < b {
      ErrorKept(f, a, b - 1);
    }
  }

  lemma WordsErrorStays(level: Level, data: seq<uint8>, base: nat, w0: int, a: nat, b: nat)
    requires a <= b <= WordsPerFrame && WordsDiffs(level, data, base, w0, a).Err?
    ensures WordsDiffs(level, data, base, w0, b) == WordsDiffs(level, data, base, w0, a)
  {
    var f := (i: nat) => if i <= WordsPerFrame then WordsDiffs(level, data, base, w0, i) else Ok([]);
    forall i | a <= i < b && f(i).Err? ensures f(i + 1) == f(i) {
      WordsErrorStep(level, data, base, w0, i);
    }
    ErrorKept(f, a, b);
  }

  lemma FramesErrorStays(level: Level, data: seq<uint8>, a: nat, b: nat)
    requires a <= b && FramesDiffs(level, data, a).Err?
    ensures FramesDiffs(level, data, b) == FramesDiffs(level, data, a)
  {
    var f := (i: nat) => FramesDiffs(level, data, i);
    forall i | a <= i < b && f(i).Err? ensures f(i + 1) == f(i) {
      FramesErrorStep(level, data, i);
    }
    ErrorKept(f, a, b);
  }

  /** `samples = [first]; samples[i] = samples[i - 1] + diff[i]` for i >= 1: the first
      difference is never applied. */
  function Integrate(x0: int, d: seq<int>): (s: seq<int>)
    ensures |s| == if |d| <= 1 then 1 else |d|
    ensures s[0] == x0
    ensures forall i :: 1 <= i < |s| ==> s[i] == s[i - 1] + d[i]
  {
    if |d| <= 1 then [x0]
    else
      var p := Integrate(x0, d[..|d| - 1]);
      p + [p[|p| - 1] + d[|d| - 1]]
  }

  method Reconstruct(x0: int, d: seq<int>) returns (samples: seq<int>)
    ensures samples == Integrate(x0, d)
  {
    samples := [x0];
    var i := 1;
    while i < |d|
      invariant |d| <= 1 ==> i == 1 && samples == [x0]
      invariant |d| > 1 ==> 1 <= i <= |d| && samples == Integrate(x0, d[..i])
    {
      samples := samples + [samples[i - 1] + d[i]];
      assert d[..i + 1][..i] == d[..i];
      i := i + 1;
    }
    if |d| > 1 {
      assert d[..i] == d;
    }
  }

  /** `UnpackSTEIM1` / `UnpackSTEIM2`: X0 and Xn from bytes 4 and 8, the differences, the
      cumulative sum, then the sample-count and reverse-integration checks. */
  function UnpackSteim(level: Level, data: seq<uint8>, nFrames: Option<uint8>, nSamples: int)
    : (r: Result<seq<int>, DecodeError>)
    ensures r.Ok? ==>
      && |data| >= 12 && |r.value| >= 1
      && |r.value| == nSamples
      && r.value[0] == I32(data, 4).value
      && r.value[|r.value| - 1] == I32(data, 8).value
  {
    var first :- Read(I32(data, 4));
    var last :- Read(I32(data, 8));
    var diff :- FramesDiffs(level, data, FrameCount(nFrames, |data|));
    var samples := Integrate(first, diff);
    if |samples| != nSamples then Err(SampleCountMismatch)
    else if samples[|samples| - 1] != last then Err(ReverseConstantMismatch)
    else Ok(samples)
  }

  method Unpack(level: Level, data: seq<uint8>, nFrames: Option<uint8>, nSamples: int)
    returns (r: Result<seq<int>, DecodeError>)
    ensures r == UnpackSteim(level, data, nFrames, nSamples)
  {
    var first :- Read(I32(data, 4));
    var last :- Read(I32(data, 8));
    var diff :- ReadDifferences(level, data, FrameCount(nFrames, |data|));
    var samples := Reconstruct(first, diff);
    if |samples| != nSamples {
      return Err(SampleCountMismatch);
    }
    if samples[|samples| - 1] != last {
      return Err(ReverseConstantMismatch);
    }
    r := Ok(samples);
  }
  // ---------------------------------------------------------------------------
  // What the decoder promises.

  /** A Steim1 word with nibble 1, 2 or 3 carries four 8-bit, two 16-bit or one 32-bit
      difference, read in byte order; a word that does not fit in the data is a RangeError. */
  lemma Steim1Word(data: seq<uint8>, at: nat, nibble: int)
    requires 1 <= nibble <= 3
    ensures var r := WordDiffs(Steim1, data, at, nibble);
      && (r.Ok? <==> at + 4 <= |data|)
      && (r.Err? ==> r.error == RangeError)
      && (r.Ok? && nibble == 1 ==>
            |r.value| == 4 && forall k :: 0 <= k < 4 ==> r.value[k] == I8(data, at + k).value)
      && (r.Ok? && nibble == 2 ==> r.value == [I16(data, at).value, I16(data, at + 2).value])
      && (r.Ok? && nibble == 3 ==> r.value == [I32(data, at).value])
  {
  }

  /** Appendix B's Steim2 table: the number of differences and their width for a nibble and
      decode nibble, or `None` where the combination is undefined. */
  function Steim2Layout(nibble: int, decodeNibble: int): Option<(nat, nat)> {
    if nibble == 2 && decodeNibble == 1 then Some((1, 30))
    else if nibble == 2 && decodeNibble == 2 then Some((2, 15))
    else if nibble == 2 && decodeNibble == 3 then Some((3, 10))
    else if nibble == 3 && decodeNibble == 0 then Some((5, 6))
    else if nibble == 3 && decodeNibble == 1 then Some((6, 5))
    else if nibble == 3 && decodeNibble == 2 then Some((7, 4))
    else None
  }

  /** A Steim2 word with nibble 2 or 3 yields the table's number of fields of the table's
      width, each in [-2^(w-1), 2^(w-1)); an undefined decode nibble is an error. */
  lemma Steim2Word(data: seq<uint8>, at: nat, nibble: int)
    requires nibble == 2 || nibble == 3
    ensures var r := WordDiffs(Steim2, data, at, nibble);
      && (at + 4 > |data| ==> r == Err(RangeError))
      && (at + 4 <= |data| ==>
            var wn := I32(data, at).value;
            match Steim2Layout(nibble, Field(wn, 30, 2))
            case None => r == Err(UnknownDecodeNibble)
            case Some((count, width)) =>
              && r.Ok? && |r.value| == count && count * width <= 30
              && forall k :: 0 <= k < count ==>
                   r.value[k] == SubField(wn, count, width, k)
                   && -Pow2(width - 1) <= r.value[k] < Pow2(width - 1))
  {
  }

  /** Nibble `j` of the control word read as a signed integer is bits 31-2j..30-2j of the
      word as stored. */
  lemma NibbleOfStoredWord(data: seq<uint8>, at: nat, j: nat)
    requires at + 4 <= |data| && j < WordsPerFrame
    ensures Nibble(I32(data, at).value, j) == Field(U32(data, at).value, 30 - 2 * j, 2)
  {
    var u := U32(data, at).value;
    Pow2Table();
    I32IsSignExtend(data, at);
    SignedFieldIsUnsignedField(u, 30 - 2 * j);
    assert Nibble(SignExtend(u, 32), j) == Field(SignExtend(u, 32), 30 - 2 * j, 2);
  }

  /** Below bit 32, `>>` and `&` see the same bits in a word and in its sign extension. */
  lemma SignedFieldIsUnsignedField(u: int, s: nat)
    requires s <= 30 && 0 <= u < Pow2(32)
    ensures Field(SignExtend(u, 32), s, 2) == Field(u, s, 2)
  {
    var w := SignExtend(u, 32);
    if w != u {
      WrappedWord(u);
      var m, q, k := Pow2(s), Pow2(32 - s), Pow2(30 - s);
      PowerSplit(s);
      assert SignExtend(u, 32) == u - q * m by { MulCommutes(m, q); }
      DivShift(u, q, m);
      ModShift(u / m, k);
    }
  }

  lemma WrappedWord(u: int)
    requires 0 <= u < Pow2(32)
    ensures SignExtend(u, 32) == u || SignExtend(u, 32) == u - Pow2(32)
  {
    var w := SignExtend(u, 32);
    var big := Pow2(32);
    if w < 0 {
      assert big == 2 * Pow2(31);
      ModOfNegative(w, big);
    } else {
      ModOfSmall(w, big);
    }
  }

  lemma PowerSplit(s: nat)
    requires s <= 30
    ensures Pow2(32) == Pow2(s) * Pow2(32 - s)
    ensures Pow2(32 - s) == 4 * Pow2(30 - s)
    ensures Pow2(2) == 4
  {
    Pow2Add(s, 32 - s);
    Pow2Add(2, 30 - s);
  }

  lemma DivShift(u: int, q: int, m: int)
    requires m > 0
    ensures (u - q * m) / m == u / m - q
  {
    var a := u / m;
    var b := u % m;
    assert u == a * m + b;
    assert u - q * m == (a - q) * m + b;
    DivUnique(u - q * m, m, a - q, b);
  }

  lemma ModShift(a: int, k: int)
    ensures (a - 4 * k) % 4 == a % 4
  {
    assert a == (a / 4) * 4 + a % 4;
    assert a - 4 * k == (a / 4 - k) * 4 + a % 4;
    DivUnique(a - 4 * k, 4, a / 4 - k, a % 4);
  }

  /** Euclidean division is unique. */
  lemma DivUnique(x: int, m: int, c: int, b: int)
    requires m > 0 && 0 <= b < m && x == c * m + b
    ensures x / m == c && x % m == b
  {
    var c2 := x / m;
    var b2 := x % m;
    assert x == c2 * m + b2;
    assert (c2 - c) * m == b - b2;
    if c2 > c {
      MulAtLeast(c2 - c, m);
    } else if c2 < c {
      MulAtLeast(c - c2, m);
    }
  }

  lemma MulCommutes(a: int, b: int)
    ensures a * b == b * a
  {
  }

  lemma MulAtLeast(k: int, m: int)
    requires k >= 1 && m > 0
    ensures k * m >= m
  {
  }

  /** The differences between consecutive samples: what an encoder stores. */
  function Deltas(s: seq<int>): (d: seq<int>)
    ensures |d| == if |s| == 0 then 0 else |s| - 1
    ensures forall i :: 0 <= i < |d| ==> d[i] == s[i + 1] - s[i]
  {
    if |s| <= 1 then [] else seq(|s| - 1, i requires 0 <= i < |s| - 1 => s[i + 1] - s[i])
  }

  /** Decompression undoes compression: integrating from X0 the differences of a sample
      sequence, behind any first difference, gives the sequence back. */
  lemma IntegrateDeltas(s: seq<int>, d0: int)
    requires |s| >= 1
    ensures Integrate(s[0], [d0] + Deltas(s)) == s
  {
    var e := [d0] + Deltas(s);
    var r := Integrate(s[0], e);
    assert |r| == |s|;
    forall i | 0 <= i < |s| ensures r[i] == s[i] {
      IntegrateAt(s, e, i);
    }
  }

  lemma {:induction false} IntegrateAt(s: seq<int>, e: seq<int>, i: nat)
    requires |s| >= 1 && |e| == |s| && i < |s|
    requires forall k :: 1 <= k < |s| ==> e[k] == s[k] - s[k - 1]
    ensures Integrate(s[0], e)[i] == s[i]
  {
    if i > 0 {
      IntegrateAt(s, e, i - 1);
      var r := Integrate(s[0], e);
      assert r[i] == r[i - 1] + e[i];
    }
  }

  function Sum(d: seq<int>): int {
    if d == [] then 0 else Sum(d[..|d| - 1]) + d[|d| - 1]
  }

  /** The last sample is X0 plus every difference but the first. */
  lemma {:induction false} IntegrateLast(x0: int, d: seq<int>)
    requires |d| >= 1
    ensures var s := Integrate(x0, d); s[|s| - 1] == x0 + Sum(d[1..])
  {
    if |d| > 1 {
      var p := d[..|d| - 1];
      IntegrateLast(x0, p);
      assert d[1..][..|d| - 2] == p[1..];
    } else {
      assert d[1..] == [];
    }
  }

  /** The first difference is never applied. */
  lemma FirstDifferenceIgnored(x0: int, d: seq<int>, d0: int)
    requires |d| >= 1
    ensures Integrate(x0, [d0] + d[1..]) == Integrate(x0, d)
  {
    var a := Integrate(x0, [d0] + d[1..]);
    var b := Integrate(x0, d);
    forall i | 0 <= i < |a| ensures a[i] == b[i] {
      FirstDifferenceIgnoredAt(x0, d, d0, i);
    }
  }

  lemma {:induction false} FirstDifferenceIgnoredAt(x0: int, d: seq<int>, d0: int, i: nat)
    requires |d| >= 1 && i < |Integrate(x0, d)|
    ensures |Integrate(x0, [d0] + d[1..])| == |Integrate(x0, d)|
    ensures Integrate(x0, [d0] + d[1..])[i] == Integrate(x0, d)[i]
  {
    if i > 0 {
      FirstDifferenceIgnoredAt(x0, d, d0, i - 1);
    }
  }

  lemma {:induction false} SumChangeOne(d: seq<int>, e: seq<int>, i: nat)
    requires |d| == |e| && i < |d|
    requires forall k :: 0 <= k < |d| && k != i ==> d[k] == e[k]
    ensures Sum(e) - Sum(d) == e[i] - d[i]
  {
    var n := |d|;
    if n - 1 == i {
      assert d[..n - 1] == e[..n - 1];
    } else {
      SumChangeOne(d[..n - 1], e[..n - 1], i);
    }
  }

  /** The reverse-integration check catches any single corrupted difference that is applied:
      changing difference `i >= 1` changes the last sample, so it no longer equals Xn. */
  lemma CorruptedDifferenceDetected(x0: int, d: seq<int>, e: seq<int>, i: nat)
    requires |d| == |e| && 1 <= i < |d| && d[i] != e[i]
    requires forall k :: 0 <= k < |d| && k != i ==> d[k] == e[k]
    ensures var s, t := Integrate(x0, d), Integrate(x0, e);
      t[|t| - 1] - s[|s| - 1] == e[i] - d[i]
  {
    TailsDifferOnce(d, e, i);
    SumChangeOne(d[1..], e[1..], i - 1);
    IntegrateLast(x0, d);
    IntegrateLast(x0, e);
  }

  lemma TailsDifferOnce(d: seq<int>, e: seq<int>, i: nat)
    requires |d| == |e| && 1 <= i < |d|
    requires forall k :: 0 <= k < |d| && k != i ==> d[k] == e[k]
    ensures forall k :: 0 <= k < |d| - 1 && k != i - 1 ==> d[1..][k] == e[1..][k]
    ensures d[1..][i - 1] == d[i] && e[1..][i - 1] == e[i]
  {
    forall k | 0 <= k < |d| - 1 && k != i - 1 ensures d[1..][k] == e[1..][k] {
      assert d[1..][k] == d[k + 1] && e[1..][k] == e[k + 1];
    }
  }

  /** Once the differences are read, decoding succeeds exactly when their integral has
      `nSamples` samples ending in Xn, and the error says which check failed. */
  lemma UnpackSteimChecks(level: Level, data: seq<uint8>, nFrames: Option<uint8>, nSamples: int)
    requires |data| >= 12
    requires FramesDiffs(level, data, FrameCount(nFrames, |data|)).Ok?
    ensures var s := Integrate(I32(data, 4).value, FramesDiffs(level, data, FrameCount(nFrames, |data|)).value);
      var r := UnpackSteim(level, data, nFrames, nSamples);
      && (r.Ok? <==> |s| == nSamples && s[|s| - 1] == I32(data, 8).value)
      && (r.Ok? ==> r.value == s)
      && (r == Err(SampleCountMismatch) <==> |s| != nSamples)
      && (r == Err(ReverseConstantMismatch) <==> |s| == nSamples && s[|s| - 1] != I32(data, 8).value)
  {
  }
}
