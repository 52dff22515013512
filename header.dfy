/** The fixed section of a miniSEED data header and its blockette chain
    (SEED Reference Manual v2.4, chapter 8), as `lib/libmseedjs/header.js` reads them. */
module MSeedHeader {
  import opened Wrappers
  import opened Buffers
  import opened Strings

  /** Everything the decoder can throw. `RangeError` is Node's error for a read past the
      end of a buffer; `BlocketteChainCycle` exists only in this model (see `BlocketteChain`). */
  datatype DecodeError =
    | RangeError
    | InvalidDataStart
    | BlocketteCountMismatch
    | LittleEndianUnsupported
    | UnknownEncoding
    | SampleCountMismatch
    | ReverseConstantMismatch
    | UnknownDecodeNibble
    | BlocketteChainCycle

  /** A checked read: a missing value is the RangeError Node throws. */
  function Read(o: Option<int>): (r: Result<int, DecodeError>)
    ensures o.Some? ==> r == Ok(o.value)
    ensures o.None? ==> r == Err(RangeError)
  {
    if o.Some? then Ok(o.value) else Err(RangeError)
  }

  datatype Blockette1000 = Blockette1000(encoding: int, byteOrder: int, recordLength: int)
  datatype Blockette1001 = Blockette1001(timingQuality: uint8, microSeconds: int, nFrames: uint8)

  /** What walking the chain has collected: the number of links followed, the last
      blockette 1000 and 1001 seen, and the raw float of the last blockette 100. */
  datatype Chain = Chain(
    count: nat,
    b1000: Option<Blockette1000>,
    b1001: Option<Blockette1001>,
    rate100: Option<seq<uint8>>)

  const NoBlockettes := Chain(0, None, None, None)

  datatype Link = Link(chain: Chain, next: nat)

  /** `1 << exponent` in JavaScript: the shift count is taken modulo 32 and the result
      is a signed 32-bit integer. */
  function RecordLength(exponent: int): (r: int)
    requires 0 <= exponent < 256
    ensures exponent % 32 < 31 ==> r == Pow2(exponent % 32)
    ensures exponent % 32 == 31 ==> r == -0x8000_0000
  {
    var k := exponent % 32;
    if k == 31 then -0x8000_0000 else Pow2(k)
  }

  /** One pass of the chain loop over the blockette at `pos`: its type, its type-specific
      fields, then the offset of the next blockette. */
  function ReadBlockette(h: seq<uint8>, pos: nat, c: Chain): (r: Result<Link, DecodeError>)
    ensures r.Ok? ==> pos + 4 <= |h| && r.value.next == h[pos + 2] as int * 0x100 + h[pos + 3]
    ensures r.Ok? ==> r.value.chain.count == c.count + 1
    ensures r.Ok? ==> var kind := h[pos] as int * 0x100 + h[pos + 1]; var d := r.value.chain;
      && (kind == 1000 ==> pos + 7 <= |h| && d.b1000 == Some(Blockette1000(h[pos + 4], h[pos + 5], RecordLength(h[pos + 6]))))
      && (kind != 1000 ==> d.b1000 == c.b1000)
      && (kind == 1001 ==> pos + 8 <= |h| && d.b1001 == Some(Blockette1001(h[pos + 4], SignExtend(h[pos + 5], 8), h[pos + 7])))
      && (kind != 1001 ==> d.b1001 == c.b1001)
      && (kind == 100 ==> pos + 8 <= |h| && d.rate100 == Some(h[pos + 4..pos + 8]))
      && (kind != 100 ==> d.rate100 == c.rate100)
  {
    var kind :- Read(U16(h, pos));
    var d :-
      if kind == 1000 then
        var encoding :- Read(U8(h, pos + 4));
        var byteOrder :- Read(U8(h, pos + 5));
        var exponent :- Read(U8(h, pos + 6));
        Ok(c.(b1000 := Some(Blockette1000(encoding, byteOrder, RecordLength(exponent)))))
      else if kind == 1001 then
        var timingQuality :- Read(U8(h, pos + 4));
        var microSeconds :- Read(I8(h, pos + 5));
        var nFrames :- Read(U8(h, pos + 7));
        Ok(c.(b1001 := Some(Blockette1001(timingQuality, microSeconds, nFrames))))
      else if kind == 100 then
        if pos + 8 <= |h| then Ok(c.(rate100 := Some(h[pos + 4..pos + 8]))) else Err(RangeError)
      else Ok(c);
    var next :- Read(U16(h, pos + 2));
    Ok(Link(d.(count := d.count + 1), next))
  }

  /** The chain loop from `pos`, allowed `fuel` more links. */
  function ChainFrom(h: seq<uint8>, pos: nat, fuel: nat, c: Chain): Result<Chain, DecodeError>
    decreases fuel
  {
    if pos == 0 then Ok(c)
    else if fuel == 0 then Err(BlocketteChainCycle)
    else
      var link :- ReadBlockette(h, pos, c);
      ChainFrom(h, link.next, fuel - 1, link.chain)
  }

  /** `ReadBlocketteChain`: follow the links from the offset at byte 46 until a next-offset
      of 0, then compare the number of links with the declared count. A terminating chain
      visits at most |h| links (see `ChainCycleIffDivergence`), so a chain still running after
      |h| links is reported as `BlocketteChainCycle`, where the source loops forever. */
  function BlocketteChain(h: seq<uint8>, declared: int): (r: Result<Chain, DecodeError>)
    ensures r.Ok? ==> |h| >= 48 && r.value.count == declared
  {
    var first :- Read(U16(h, 46));
    var c :- ChainFrom(h, first, |h|, NoBlockettes);
    if c.count != declared then Err(BlocketteCountMismatch) else Ok(c)
  }

  method ReadBlocketteChain(h: seq<uint8>, declared: int) returns (r: Result<Chain, DecodeError>)
    ensures r == BlocketteChain(h, declared)
  {
    var first :- Read(U16(h, 46));
    var start: nat := first;
    var counter: nat := 0;
    var b1000: Option<Blockette1000> := None;
    var b1001: Option<Blockette1001> := None;
    var rate100: Option<seq<uint8>> := None;
    var fuel: nat := |h|;
    while start != 0
      invariant ChainFrom(h, start, fuel, Chain(counter, b1000, b1001, rate100))
             == ChainFrom(h, first, |h|, NoBlockettes)
      decreases fuel
    {
      if fuel == 0 {
        return Err(BlocketteChainCycle);
      }
      ghost var before := Chain(counter, b1000, b1001, rate100);
      counter := counter + 1;
      var kind :- Read(U16(h, start));
      if kind == 1000 {
        var encoding :- Read(U8(h, start + 4));
        var byteOrder :- Read(U8(h, start + 5));
        var exponent :- Read(U8(h, start + 6));
        b1000 := Some(Blockette1000(encoding, byteOrder, RecordLength(exponent)));
      } else if kind == 1001 {
        var timingQuality :- Read(U8(h, start + 4));
        var microSeconds :- Read(I8(h, start + 5));
        var nFrames :- Read(U8(h, start + 7));
        b1001 := Some(Blockette1001(timingQuality, microSeconds, nFrames));
      } else if kind == 100 {
        if start + 8 > |h| {
          return Err(RangeError);
        }
        rate100 := Some(h[start + 4..start + 8]);
      }
      var next :- Read(U16(h, start + 2));
      assert ReadBlockette(h, start, before) == Ok(Link(Chain(counter, b1000, b1001, rate100), next));
      start, fuel := next, fuel - 1;
    }
    if counter != declared {
      return Err(BlocketteCountMismatch);
    }
    r := Ok(Chain(counter, b1000, b1001, rate100));
  }

  // ---------------------------------------------------------------------------
  // The chain loop as the source writes it: `while (blocketteStart) { ... }` with no bound.

  /** The state of the source's loop: still running at an offset, or finished. */
  datatype Run = Running(pos: nat, chain: Chain) | Halted(outcome: Result<Chain, DecodeError>)

  /** One test of `while (blocketteStart)` and, when it holds, one pass over a blockette:
      a zero offset ends the loop, a failing read throws, and otherwise the walk moves to
      the next offset with one more blockette counted. */
  function LoopStep(h: seq<uint8>, run: Run): (r: Run)
    ensures run.Halted? ==> r == run
    ensures run.Running? && run.pos == 0 ==> r == Halted(Ok(run.chain))
    ensures run.Running? && run.pos != 0 ==> (r.Running? <==> ReadBlockette(h, run.pos, run.chain).Ok?)
    ensures r.Running? ==>
      && run.Running? && run.pos + 4 <= |h|
      && r.chain.count == run.chain.count + 1
      && r.pos == h[run.pos + 2] as int * 0x100 + h[run.pos + 3]
  {
    match run
    case Halted(_) => run
    case Running(pos, c) =>
      if pos == 0 then Halted(Ok(c))
      else match ReadBlockette(h, pos, c)
        case Err(e) => Halted(Err(e))
        case Ok(link) => Running(link.next, link.chain)
  }

  /** The source's loop after `n` iterations (a final `pos == 0` test counts as one). */
  function Iterate(h: seq<uint8>, run: Run, n: nat): (r: Run)
    ensures r.Running? ==> run.Running? && r.chain.count == run.chain.count + n
    decreases n
  {
    if n == 0 then run else Iterate(h, LoopStep(h, run), n - 1)
  }

  lemma {:induction false} HaltedStays(h: seq<uint8>, r: Result<Chain, DecodeError>, n: nat)
    ensures Iterate(h, Halted(r), n) == Halted(r)
  {
    if n > 0 {
      HaltedStays(h, r, n - 1);
    }
  }

  /** The next offset of the blockette at `pos`, when all its reads succeed; it does not
      depend on what the walk has collected. */
  function NextLink(h: seq<uint8>, pos: nat): Option<nat> {
    match ReadBlockette(h, pos, NoBlockettes)
    case Ok(link) => Some(link.next)
    case Err(_) => None
  }

  lemma NextLinkAnyChain(h: seq<uint8>, pos: nat, c: Chain)
    ensures ReadBlockette(h, pos, c).Ok? <==> NextLink(h, pos).Some?
    ensures ReadBlockette(h, pos, c).Ok? ==> ReadBlockette(h, pos, c).value.next == NextLink(h, pos).value
  {
  }

  predicate Readable(h: seq<uint8>, pos: nat) {
    pos != 0 && NextLink(h, pos).Some?
  }

  /** The offset reached after following `k` links from `pos` (0 once a link cannot be read). */
  function Offset(h: seq<uint8>, pos: nat, k: nat): nat
    decreases k
  {
    if k == 0 then pos
    else Offset(h, if Readable(h, pos) then NextLink(h, pos).value else 0, k - 1)
  }

  lemma {:induction false} OffsetAdd(h: seq<uint8>, pos: nat, a: nat, b: nat)
    ensures Offset(h, pos, a + b) == Offset(h, Offset(h, pos, a), b)
    decreases a
  {
    if a > 0 {
      OffsetAdd(h, if Readable(h, pos) then NextLink(h, pos).value else 0, a - 1, b);
    }
  }

  /** The number of links counted by a walk that ends is the number of non-zero offsets
      visited before the first next-offset of 0. */
  lemma {:induction false} ChainCountsLinks(h: seq<uint8>, pos: nat, fuel: nat, c: Chain)
    requires ChainFrom(h, pos, fuel, c).Ok?
    ensures var k := ChainFrom(h, pos, fuel, c).value.count - c.count;
      && k >= 0 && Offset(h, pos, k) == 0
      && forall i :: 0 <= i < k ==> Readable(h, Offset(h, pos, i))
    decreases fuel
  {
    if pos != 0 {
      var link := ReadBlockette(h, pos, c).value;
      NextLinkAnyChain(h, pos, c);
      ChainCountsLinks(h, link.next, fuel - 1, link.chain);
      var k := ChainFrom(h, pos, fuel, c).value.count - c.count;
      forall i | 0 <= i < k ensures Readable(h, Offset(h, pos, i)) {
        if i > 0 {
          assert Offset(h, pos, i) == Offset(h, link.next, i - 1);
        }
      }
    }
  }

  /** Where the bounded walk returns anything but `BlocketteChainCycle`, the source's loop
      stops with the same outcome. */
  lemma {:induction false} ChainFromAgrees(h: seq<uint8>, pos: nat, fuel: nat, c: Chain)
    requires ChainFrom(h, pos, fuel, c) != Err(BlocketteChainCycle)
    ensures Iterate(h, Running(pos, c), fuel + 1) == Halted(ChainFrom(h, pos, fuel, c))
    decreases fuel
  {
    var r := ChainFrom(h, pos, fuel, c);
    if pos == 0 {
      HaltedStays(h, Ok(c), fuel);
    } else {
      match ReadBlockette(h, pos, c)
      case Err(e) =>
        HaltedStays(h, Err(e), fuel);
      case Ok(link) =>
        ChainFromAgrees(h, link.next, fuel - 1, link.chain);
    }
  }

  /** A bounded walk that runs out of fuel has followed `fuel` readable links. */
  lemma {:induction false} CycleMeansReadable(h: seq<uint8>, pos: nat, fuel: nat, c: Chain)
    requires ChainFrom(h, pos, fuel, c) == Err(BlocketteChainCycle)
    ensures forall k :: 0 <= k < fuel ==> Readable(h, Offset(h, pos, k))
    decreases fuel
  {
    if fuel > 0 {
      var link := ReadBlockette(h, pos, c).value;
      NextLinkAnyChain(h, pos, c);
      CycleMeansReadable(h, link.next, fuel - 1, link.chain);
      forall k | 0 <= k < fuel ensures Readable(h, Offset(h, pos, k)) {
        if k > 0 {
          assert Offset(h, pos, k) == Offset(h, link.next, k - 1);
        }
      }
    }
  }

  /** While every offset reached is readable, the source's loop is still running. */
  lemma {:induction false} ReadableKeepsRunning(h: seq<uint8>, pos: nat, c: Chain, n: nat)
    requires forall k :: 0 <= k < n ==> Readable(h, Offset(h, pos, k))
    ensures Iterate(h, Running(pos, c), n).Running?
    ensures Iterate(h, Running(pos, c), n).pos == Offset(h, pos, n)
    decreases n
  {
    if n > 0 {
      NextLinkAnyChain(h, pos, c);
      assert Readable(h, Offset(h, pos, 0));
      var link := ReadBlockette(h, pos, c).value;
      forall k | 0 <= k < n - 1 ensures Readable(h, Offset(h, link.next, k)) {
        assert Offset(h, pos, k + 1) == Offset(h, link.next, k);
      }
      ReadableKeepsRunning(h, link.next, link.chain, n - 1);
    }
  }

  /** Pigeonhole: more values than 1..bound holds, all drawn from 1..bound, repeat. */
  lemma Pigeonhole(s: seq<nat>, bound: nat)
    requires bound < |s|
    requires forall k :: 0 <= k < |s| ==> 1 <= s[k] <= bound
    ensures exists i, j :: 0 <= i < j < |s| && s[i] == s[j]
  {
    if !exists i, j :: 0 <= i < j < |s| && s[i] == s[j] {
      DistinctCard(s);
      assert Elements(s) <= UpTo(bound);
      SubsetCard(Elements(s), UpTo(bound));
      assert false;
    }
  }

  function Elements(s: seq<nat>): set<nat> {
    set x | x in s
  }

  lemma {:induction false} DistinctCard(s: seq<nat>)
    requires forall i, j :: 0 <= i < j < |s| ==> s[i] != s[j]
    ensures |Elements(s)| == |s|
  {
    if s != [] {
      var t := s[..|s| - 1];
      var last := s[|s| - 1];
      DistinctCard(t);
      assert s == t + [last];
      assert Elements(s) == Elements(t) + {last};
    }
  }

  /** The offsets 1..bound. */
  function UpTo(bound: nat): (r: set<nat>)
    ensures |r| == bound
    ensures forall x :: x in r <==> 1 <= x <= bound
  {
    if bound == 0 then {} else UpTo(bound - 1) + {bound}
  }

  lemma {:induction false} SubsetCard(a: set<nat>, b: set<nat>)
    requires a <= b
    ensures |a| <= |b|
  {
    if a != {} {
      var x :| x in a;
      SubsetCard(a - {x}, b - {x});
    }
  }

  /** Once the offset walk revisits an offset, every later offset is one already seen. */
  lemma {:induction false} RepeatKeepsReadable(h: seq<uint8>, pos: nat, i: nat, j: nat, n: nat)
    requires i < j && Offset(h, pos, i) == Offset(h, pos, j)
    requires forall k :: 0 <= k < j ==> Readable(h, Offset(h, pos, k))
    ensures Readable(h, Offset(h, pos, n))
    decreases n
  {
    if n >= j {
      var m := n - (j - i);
      OffsetAdd(h, pos, j, n - j);
      OffsetAdd(h, pos, i, n - j);
      assert Offset(h, pos, n) == Offset(h, pos, m);
      RepeatKeepsReadable(h, pos, i, j, m);
    }
  }

  /** The bounded walk reports a cycle exactly when the source's loop never stops: for
      every other outcome the loop stops with that outcome within |h| + 1 iterations. */
  lemma ChainCycleIffDivergence(h: seq<uint8>, pos: nat, c: Chain)
    requires |h| > 0
    ensures ChainFrom(h, pos, |h|, c) == Err(BlocketteChainCycle) ==>
      forall n :: Iterate(h, Running(pos, c), n).Running?
    ensures ChainFrom(h, pos, |h|, c) != Err(BlocketteChainCycle) ==>
      Iterate(h, Running(pos, c), |h| + 1) == Halted(ChainFrom(h, pos, |h|, c))
  {
    if ChainFrom(h, pos, |h|, c) == Err(BlocketteChainCycle) {
      CycleMeansReadable(h, pos, |h|, c);
      assert Readable(h, Offset(h, pos, 0));
      var offsets := seq(|h|, k requires 0 <= k < |h| => Offset(h, pos, k));
      forall k | 0 <= k < |h| ensures 1 <= offsets[k] <= |h| - 1 {
        assert Readable(h, Offset(h, pos, k));
      }
      Pigeonhole(offsets, |h| - 1);
      var i, j :| 0 <= i < j < |offsets| && offsets[i] == offsets[j];
      forall n: nat ensures Iterate(h, Running(pos, c), n).Running? {
        forall k | 0 <= k < n ensures Readable(h, Offset(h, pos, k)) {
          RepeatKeepsReadable(h, pos, i, j, k);
        }
        ReadableKeepsRunning(h, pos, c, n);
      }
    } else {
      ChainFromAgrees(h, pos, |h|, c);
    }
  }

  /** A header whose only blockette, at offset 48, names itself as the next one. */
  const SelfLinkedChain: seq<uint8> := seq(46, _ => 0) + [0, 48] + [0, 0, 0, 48]

  /** On `SelfLinkedChain` the source's loop runs forever, counting one more link each time. */
  lemma SelfLinkedChainNeverEnds(n: nat)
    ensures Iterate(SelfLinkedChain, Running(48, NoBlockettes), n).Running?
  {
    SelfLinkedStep(n, NoBlockettes);
  }

  lemma {:induction false} SelfLinkedStep(n: nat, c: Chain)
    ensures Iterate(SelfLinkedChain, Running(48, c), n) == Running(48, c.(count := c.count + n))
    decreases n
  {
    var h := SelfLinkedChain;
    if n > 0 {
      assert h[48] == 0 && h[49] == 0 && h[50] == 0 && h[51] == 48;
      assert ReadBlockette(h, 48, c) == Ok(Link(c.(count := c.count + 1), 48));
      SelfLinkedStep(n - 1, c.(count := c.count + 1));
    }
  }

  /** The bounded walk reports the cycle on the same bytes. */
  lemma SelfLinkedChainIsReported()
    ensures U16(SelfLinkedChain, 46) == Some(48)
    ensures BlocketteChain(SelfLinkedChain, 1) == Err(BlocketteChainCycle)
  {
    var h := SelfLinkedChain;
    assert h[46] == 0 && h[47] == 48;
    ChainCycleIffDivergence(h, 48, NoBlockettes);
    if ChainFrom(h, 48, |h|, NoBlockettes) != Err(BlocketteChainCycle) {
      SelfLinkedStep(|h| + 1, NoBlockettes);
      assert false;
    }
  }
  // ---------------------------------------------------------------------------
  // The fixed section.

  /** The nominal sample rate; `Unset` is the source's `null`, and `Float32Bits` keeps the
      raw IEEE 754 single of a blockette 100 undecoded. */
  datatype SampleRate = Unset | Nominal(hz: real) | Float32Bits(bits: seq<uint8>)

  /** The SEED reading of the factor: samples per second when positive, seconds per
      sample when negative. */
  function FactorRate(f: int): real
    requires f != 0
  {
    if f > 0 then f as real else 1.0 / (-f) as real
  }

  /** The SEED reading of the multiplier: multiply when positive, divide when negative. */
  function MultiplierScale(m: int): real
    requires m != 0
  {
    if m > 0 then m as real else 1.0 / (-m) as real
  }

  /** `ReadSampleRate`'s four sign cases; a zero factor or multiplier gives `null`. */
  function RateFromFactors(f: int, m: int): (r: SampleRate)
    ensures r.Nominal? <==> f != 0 && m != 0
    ensures r.Float32Bits? == false
    ensures r.Nominal? ==> r.hz > 0.0 && r.hz == FactorRate(f) * MultiplierScale(m)
  {
    if f > 0 && m > 0 then Nominal(m as real * f as real)
    else if f > 0 && m < 0 then Nominal(-(f as real) / m as real)
    else if f < 0 && m > 0 then Nominal(-(m as real) / f as real)
    else if f < 0 && m < 0 then
      assert f as real * m as real == (-f) as real * (-m) as real;
      Nominal(1.0 / (f as real * m as real))
    else Unset
  }

  function ReadSampleRate(h: seq<uint8>): (r: Result<SampleRate, DecodeError>)
    ensures r.Ok? <==> 36 <= |h|
    ensures r.Ok? ==> r.value == RateFromFactors(I16(h, 32).value, I16(h, 34).value)
  {
    var factor :- Read(I16(h, 32));
    var multiplier :- Read(I16(h, 34));
    Ok(RateFromFactors(factor, multiplier))
  }

  datatype Flags = Flags(activity: int, clock: int, quality: int)

  function ReadBitFlags(h: seq<uint8>): (r: Result<Flags, DecodeError>)
    ensures r.Ok? <==> 39 <= |h|
    ensures r.Ok? ==> r.value == Flags(h[36], h[37], h[38])
  {
    var activity :- Read(U8(h, 36));
    var clock :- Read(U8(h, 37));
    var quality :- Read(U8(h, 38));
    Ok(Flags(activity, clock, quality))
  }

  /** `(0.1 * x) | 0` for a 32-bit `x`: x / 10 truncated toward zero. (The double nearest
      to 0.1 is slightly above it and every integer in range is a double, so the rounded
      product never crosses the integer the exact quotient truncates to.) */
  function TenthTruncated(x: int): (r: int)
    ensures x >= 0 ==> 0 <= x - 10 * r < 10
    ensures x < 0 ==> -10 < x - 10 * r <= 0
  {
    if x >= 0 then x / 10 else -((-x) / 10)
  }

  /** The record start as its BTIME fields, with milliseconds from the tenth-millisecond
      field. */
  datatype BTime = BTime(year: int, dayOfYear: int, hour: int, minute: int, second: int, millis: int)

  function ReadRecordStart(h: seq<uint8>): (r: Result<BTime, DecodeError>)
    ensures r.Ok? <==> 30 <= |h|
    ensures r.Ok? ==> r.value.millis == (h[28] as int * 0x100 + h[29]) / 10
  {
    var year :- Read(U16(h, 20));
    var hour :- Read(U8(h, 24));
    var minute :- Read(U8(h, 25));
    var second :- Read(U8(h, 26));
    var tenths :- Read(U16(h, 28));
    var day := U16(h, 22).value;
    Ok(BTime(year, day, hour, minute, second, TenthTruncated(tenths)))
  }

  /** The milliseconds added to the start: the timing correction (in units of 0.1 ms)
      truncated toward zero, unless bit 0x02 of the activity flags says the correction
      is already applied. */
  function StartCorrection(activity: int, timingCorrection: int): (r: int)
    requires 0 <= activity < 256
    ensures (activity / 2) % 2 == 1 ==> r == 0
    ensures (activity / 2) % 2 == 0 && timingCorrection >= 0 ==> 0 <= timingCorrection - 10 * r < 10
    ensures (activity / 2) % 2 == 0 && timingCorrection < 0 ==> -10 < timingCorrection - 10 * r <= 0
  {
    if (activity / 2) % 2 == 1 then 0 else TenthTruncated(timingCorrection)
  }

  /** `toString("ascii", start, end).trim()`: at most `end - start` characters
      (`Strings.TrimKeepsInfix` says which). */
  function StreamCode(h: seq<uint8>, start: nat, end: nat): (r: string)
    requires start <= end
    ensures |r| <= end - start
  {
    Trim(Ascii(h, start, end))
  }

  /** The fields the source's `Header` object ends up with. `encoding`, `byteOrder` and
      `recordLength` come from the last blockette 1000; the 1001 fields stay `None` (the
      source's `null`) without a blockette 1001. */
  datatype Header = Header(
    sequenceNumber: string,
    dataQuality: string,
    nBlockettes: int,
    encoding: int,
    byteOrder: int,
    recordLength: int,
    timingQuality: Option<int>,
    microSeconds: Option<int>,
    nFrames: Option<uint8>,
    nSamples: int,
    sampleRate: SampleRate,
    flags: Flags,
    timingCorrection: int,
    start: BTime,
    startCorrection: int,
    station: string,
    location: string,
    channel: string,
    network: string)

  /** The `Header` constructor, in the source's order of reads and checks. */
  function ParseHeader(h: seq<uint8>): (r: Result<Header, DecodeError>)
    ensures r.Ok? ==> |h| >= 48 && BlocketteChain(h, h[39]).Ok?
  {
    var nBlockettes :- Read(U8(h, 39));
    var chain :- BlocketteChain(h, nBlockettes);
    if chain.b1000.None? || chain.b1000.value.byteOrder == 0 then Err(LittleEndianUnsupported)
    else Ok(FixedSection(h, chain))
  }

  /** The fields read once the chain is known to be big-endian. The chain's first offset
      sits at byte 46, so every fixed-section read succeeds; the ensures give each field's
      byte position. */
  function FixedSection(h: seq<uint8>, chain: Chain): (hdr: Header)
    requires |h| >= 48 && chain.b1000.Some?
    ensures |hdr.sequenceNumber| == 6 && |hdr.dataQuality| == 1
    ensures forall i :: 0 <= i < 6 ==> hdr.sequenceNumber[i] as int == h[i] % 128
    ensures hdr.dataQuality[0] as int == h[6] % 128
    ensures hdr.nBlockettes == h[39]
    ensures hdr.nSamples == h[30] as int * 0x100 + h[31]
    ensures hdr.flags == Flags(h[36], h[37], h[38])
    ensures hdr.timingCorrection == I32(h, 40).value
  {
    var b := chain.b1000.value;
    var rate := if chain.rate100.Some? then Float32Bits(chain.rate100.value) else ReadSampleRate(h).value;
    var flags := ReadBitFlags(h).value;
    var timingCorrection := I32(h, 40).value;
    Header(
      Ascii(h, 0, 6), Ascii(h, 6, 7), h[39],
      b.encoding, b.byteOrder, b.recordLength,
      if chain.b1001.Some? then Some(chain.b1001.value.timingQuality) else None,
      if chain.b1001.Some? then Some(chain.b1001.value.microSeconds) else None,
      if chain.b1001.Some? then Some(chain.b1001.value.nFrames) else None,
      U16(h, 30).value, rate, flags, timingCorrection,
      ReadRecordStart(h).value, StartCorrection(flags.activity, timingCorrection),
      StreamCode(h, 8, 13), StreamCode(h, 13, 15), StreamCode(h, 15, 18), StreamCode(h, 18, 20))
  }

  /** The constructor as the source runs it: field by field, with the chain loop. */
  method NewHeader(h: seq<uint8>) returns (r: Result<Header, DecodeError>)
    ensures r == ParseHeader(h)
  {
    var sequenceNumber := Ascii(h, 0, 6);
    var dataQuality := Ascii(h, 6, 7);
    var nBlockettes :- Read(U8(h, 39));
    var chain :- ReadBlocketteChain(h, nBlockettes);
    if chain.b1000.None? || chain.b1000.value.byteOrder == 0 {
      return Err(LittleEndianUnsupported);
    }
    var b := chain.b1000.value;
    var nSamples := U16(h, 30).value;
    var rate := Unset;
    if chain.rate100.Some? {
      rate := Float32Bits(chain.rate100.value);
    } else {
      rate := ReadSampleRate(h).value;
    }
    var flags := ReadBitFlags(h).value;
    var timingCorrection := I32(h, 40).value;
    var start := ReadRecordStart(h).value;
    var correction := StartCorrection(flags.activity, timingCorrection);
    var timingQuality: Option<int>, microSeconds: Option<int>, nFrames: Option<uint8> := None, None, None;
    if chain.b1001.Some? {
      timingQuality := Some(chain.b1001.value.timingQuality);
      microSeconds := Some(chain.b1001.value.microSeconds);
      nFrames := Some(chain.b1001.value.nFrames);
    }
    r := Ok(Header(
      sequenceNumber, dataQuality, nBlockettes,
      b.encoding, b.byteOrder, b.recordLength,
      timingQuality, microSeconds, nFrames,
      nSamples, rate, flags, timingCorrection,
      start, correction,
      StreamCode(h, 8, 13), StreamCode(h, 13, 15), StreamCode(h, 15, 18), StreamCode(h, 18, 20)));
  }

  /** The declared blockette count is the number of links followed from the offset at
      byte 46 until a next-offset of 0. */
  lemma BlocketteCountIsLinksFollowed(h: seq<uint8>, declared: int)
    requires BlocketteChain(h, declared).Ok?
    ensures var first := h[46] as int * 0x100 + h[47];
      && declared >= 0 && Offset(h, first, declared) == 0
      && forall i :: 0 <= i < declared ==> Readable(h, Offset(h, first, i))
  {
    var first := U16(h, 46).value;
    ChainCountsLinks(h, first, |h|, NoBlockettes);
  }

  /** A chain that ends with a different number of links than byte 39 declares is refused. */
  lemma BlocketteCountMismatchRefused(h: seq<uint8>)
    requires |h| >= 48
    requires ChainFrom(h, U16(h, 46).value, |h|, NoBlockettes).Ok?
    requires ChainFrom(h, U16(h, 46).value, |h|, NoBlockettes).value.count != h[39]
    ensures ParseHeader(h) == Err(BlocketteCountMismatch)
  {
  }

  /** Only big-endian records decode: a header decodes only with a blockette 1000 whose byte
      order is non-zero, and a chain without one is refused as little-endian. */
  lemma ByteOrderRequired(h: seq<uint8>)
    ensures ParseHeader(h).Ok? ==> ParseHeader(h).value.byteOrder != 0
    ensures |h| >= 40 && BlocketteChain(h, h[39]).Ok? ==>
      var c := BlocketteChain(h, h[39]).value;
      (c.b1000.None? || c.b1000.value.byteOrder == 0) ==> ParseHeader(h) == Err(LittleEndianUnsupported)
  {
  }

  /** The rate from byte 32 and 34 is used only when no blockette 100 set one. */
  lemma RateSource(h: seq<uint8>)
    requires ParseHeader(h).Ok?
    ensures var c := BlocketteChain(h, h[39]).value; var hdr := ParseHeader(h).value;
      && (c.rate100.Some? ==> hdr.sampleRate == Float32Bits(c.rate100.value))
      && (c.rate100.None? ==> hdr.sampleRate == RateFromFactors(I16(h, 32).value, I16(h, 34).value))
  {
  }

  /** The stream identifiers are the trimmed bytes 8-13, 13-15, 15-18 and 18-20. */
  lemma StreamIdShape(h: seq<uint8>)
    requires ParseHeader(h).Ok?
    ensures var hdr := ParseHeader(h).value;
      && |hdr.station| <= 5 && |hdr.location| <= 2 && |hdr.channel| <= 3 && |hdr.network| <= 2
      && hdr.station == Trim(Ascii(h, 8, 13)) && hdr.location == Trim(Ascii(h, 13, 15))
      && hdr.channel == Trim(Ascii(h, 15, 18)) && hdr.network == Trim(Ascii(h, 18, 20))
  {
  }
}
