/** A miniSEED record as `lib/libmseedjs/record.js` decodes it: the data-start check, the
    header over the bytes before the data, and the samples unpacked by encoding. */
module MSeedRecord {
  import opened Wrappers
  import opened Buffers
  import opened Strings
  import opened MSeedHeader
  import Steim

  /** Decoded samples. Integer encodings give their values; the float encodings are kept as
      the raw IEEE 754 words of the given width. */
  datatype Samples = Integers(values: seq<int>) | FloatWords(width: nat, words: seq<seq<uint8>>)

  datatype Record = Record(header: Header, data: Samples)

  /** SEED data encoding codes (SEED Reference Manual v2.4, blockette 1000). */
  const Int16Encoding := 1
  const Int32Encoding := 3
  const Float32Encoding := 4
  const Float64Encoding := 5
  const Steim1Encoding := 10
  const Steim2Encoding := 11

  /** `n` reads at stride `width` from offset 0 throw exactly when the last one runs past the
      end. */
  predicate StrideFits(data: seq<uint8>, n: int, width: nat) {
    n <= 0 || width * n <= |data|
  }

  function Count(n: int): nat {
    if n <= 0 then 0 else n
  }

  /** `Unpack16BitInt`: `readInt16BE(2 * i)` for every i below `nSamples`. */
  function Int16Samples(data: seq<uint8>, nSamples: int): (r: Result<seq<int>, DecodeError>)
    ensures r.Ok? <==> StrideFits(data, nSamples, 2)
    ensures r.Err? ==> r.error == RangeError
    ensures r.Ok? ==>
      && |r.value| == Count(nSamples)
      && forall i :: 0 <= i < |r.value| ==>
           && -0x8000 <= r.value[i] < 0x8000
           && r.value[i] % 0x1_0000 == data[2 * i] as int * 0x100 + data[2 * i + 1]
  {
    if !StrideFits(data, nSamples, 2) then Err(RangeError)
    else
      var r := seq(Count(nSamples), i requires 0 <= i < Count(nSamples) => I16(data, 2 * i).value);
      assert forall i :: 0 <= i < |r| ==> r[i] % 0x1_0000 == data[2 * i] as int * 0x100 + data[2 * i + 1] by {
        forall i | 0 <= i < |r| { I16Bits(data, 2 * i); }
      }
      Ok(r)
  }

  /** `Unpack32BitInt`: `readInt32BE(4 * i)` for every i below `nSamples`. */
  function Int32Samples(data: seq<uint8>, nSamples: int): (r: Result<seq<int>, DecodeError>)
    ensures r.Ok? <==> StrideFits(data, nSamples, 4)
    ensures r.Err? ==> r.error == RangeError
    ensures r.Ok? ==>
      && |r.value| == Count(nSamples)
      && forall i :: 0 <= i < |r.value| ==>
           && -0x8000_0000 <= r.value[i] < 0x8000_0000
           && r.value[i] % 0x1_0000_0000
              == ((data[4 * i] as int * 0x100 + data[4 * i + 1]) * 0x100 + data[4 * i + 2]) * 0x100 + data[4 * i + 3]
  {
    if !StrideFits(data, nSamples, 4) then Err(RangeError)
    else
      var r := seq(Count(nSamples), i requires 0 <= i < Count(nSamples) => I32(data, 4 * i).value);
      assert forall i :: 0 <= i < |r| ==>
        r[i] % 0x1_0000_0000 == ((data[4 * i] as int * 0x100 + data[4 * i + 1]) * 0x100 + data[4 * i + 2]) * 0x100 + data[4 * i + 3] by {
        forall i | 0 <= i < |r| { I32Bits(data, 4 * i); }
      }
      Ok(r)
  }

  /** `Unpack32BitFloat` / `Unpack64BitFloat`, keeping each word's bytes undecoded. */
  function FloatSamples(data: seq<uint8>, nSamples: int, width: nat): (r: Result<seq<seq<uint8>>, DecodeError>)
    requires width == 4 || width == 8
    ensures r.Ok? <==> StrideFits(data, nSamples, width)
    ensures r.Ok? ==>
      && |r.value| == Count(nSamples)
      && forall i :: 0 <= i < |r.value| ==> r.value[i] == data[width * i..width * i + width]
  {
    if !StrideFits(data, nSamples, width) then Err(RangeError)
    else Ok(seq(Count(nSamples), i requires 0 <= i < Count(nSamples) => data[width * i..width * i + width]))
  }

  method Unpack16BitInt(data: seq<uint8>, nSamples: int) returns (r: Result<seq<int>, DecodeError>)
    ensures r == Int16Samples(data, nSamples)
  {
    var samples: seq<int> := [];
    var i := 0;
    while i < nSamples
      invariant 0 <= i <= Count(nSamples)
      invariant 2 * i <= |data|
      invariant |samples| == i && forall k :: 0 <= k < i ==> samples[k] == I16(data, 2 * k).value
    {
      var v := I16(data, 2 * i);
      if v.None? {
        assert Int16Samples(data, nSamples) == Err(RangeError);
        return Err(RangeError);
      }
      samples := samples + [v.value];
      i := i + 1;
    }
    assert i == Count(nSamples);
    assert Int16Samples(data, nSamples).value == samples;
    r := Ok(samples);
  }

  method Unpack32BitInt(data: seq<uint8>, nSamples: int) returns (r: Result<seq<int>, DecodeError>)
    ensures r == Int32Samples(data, nSamples)
  {
    var samples: seq<int> := [];
    var i := 0;
    while i < nSamples
      invariant 0 <= i <= Count(nSamples)
      invariant 4 * i <= |data|
      invariant |samples| == i && forall k :: 0 <= k < i ==> samples[k] == I32(data, 4 * k).value
    {
      var v := I32(data, 4 * i);
      if v.None? {
        assert Int32Samples(data, nSamples) == Err(RangeError);
        return Err(RangeError);
      }
      samples := samples + [v.value];
      i := i + 1;
    }
    assert i == Count(nSamples);
    assert Int32Samples(data, nSamples).value == samples;
    r := Ok(samples);
  }

  method UnpackFloat(data: seq<uint8>, nSamples: int, width: nat) returns (r: Result<seq<seq<uint8>>, DecodeError>)
    requires width == 4 || width == 8
    ensures r == FloatSamples(data, nSamples, width)
  {
    var samples: seq<seq<uint8>> := [];
    var i := 0;
    while i < nSamples
      invariant 0 <= i <= Count(nSamples)
      invariant width * i <= |data|
      invariant |samples| == i && forall k :: 0 <= k < i ==> samples[k] == data[width * k..width * k + width]
    {
      if width * i + width > |data| {
        assert FloatSamples(data, nSamples, width) == Err(RangeError);
        return Err(RangeError);
      }
      samples := samples + [data[width * i..width * i + width]];
      i := i + 1;
    }
    assert i == Count(nSamples);
    assert FloatSamples(data, nSamples, width).value == samples;
    r := Ok(samples);
  }

  function Wrap(r: Result<seq<int>, DecodeError>): Result<Samples, DecodeError> {
    match r
    case Ok(v) => Ok(Integers(v))
    case Err(e) => Err(e)
  }

  function WrapFloats(r: Result<seq<seq<uint8>>, DecodeError>, width: nat): Result<Samples, DecodeError> {
    match r
    case Ok(v) => Ok(FloatWords(width, v))
    case Err(e) => Err(e)
  }

  /** `UnpackData`: the samples for the header's encoding, in the source's test order. */
  function UnpackData(hdr: Header, data: seq<uint8>): (r: Result<Samples, DecodeError>)
    ensures r.Ok? ==> hdr.encoding in {1, 3, 4, 5, 10, 11}
    ensures r.Ok? && r.value.Integers? ==> |r.value.values| == Count(hdr.nSamples)
    ensures r.Ok? && r.value.FloatWords? ==>
      && |r.value.words| == Count(hdr.nSamples)
      && r.value.width == (if hdr.encoding == Float32Encoding then 4 else 8)
  {
    if hdr.encoding == Int32Encoding then Wrap(Int32Samples(data, hdr.nSamples))
    else if hdr.encoding == Float32Encoding then WrapFloats(FloatSamples(data, hdr.nSamples, 4), 4)
    else if hdr.encoding == Float64Encoding then WrapFloats(FloatSamples(data, hdr.nSamples, 8), 8)
    else if hdr.encoding == Int16Encoding then Wrap(Int16Samples(data, hdr.nSamples))
    else if hdr.encoding == Steim1Encoding then
      Wrap(Steim.UnpackSteim(Steim.Steim1, data, hdr.nFrames, hdr.nSamples))
    else if hdr.encoding == Steim2Encoding then
      Wrap(Steim.UnpackSteim(Steim.Steim2, data, hdr.nFrames, hdr.nSamples))
    else Err(UnknownEncoding)
  }

  method UnpackDataMethod(hdr: Header, data: seq<uint8>) returns (r: Result<Samples, DecodeError>)
    ensures r == UnpackData(hdr, data)
  {
    if hdr.encoding == Int32Encoding {
      var v := Unpack32BitInt(data, hdr.nSamples);
      r := Wrap(v);
    } else if hdr.encoding == Float32Encoding {
      var v := UnpackFloat(data, hdr.nSamples, 4);
      r := WrapFloats(v, 4);
    } else if hdr.encoding == Float64Encoding {
      var v := UnpackFloat(data, hdr.nSamples, 8);
      r := WrapFloats(v, 8);
    } else if hdr.encoding == Int16Encoding {
      var v := Unpack16BitInt(data, hdr.nSamples);
      r := Wrap(v);
    } else if hdr.encoding == Steim1Encoding {
      var v := Steim.Unpack(Steim.Steim1, data, hdr.nFrames, hdr.nSamples);
      r := Wrap(v);
    } else if hdr.encoding == Steim2Encoding {
      var v := Steim.Unpack(Steim.Steim2, data, hdr.nFrames, hdr.nSamples);
      r := Wrap(v);
    } else {
      r := Err(UnknownEncoding);
    }
  }

  /** The `Record` constructor: the data start at byte 44 must be at least 48, the header
      is decoded from the bytes before it and the samples from the bytes between it and the
      record length (both through `Buffer.slice`). */
  function Decode(data: seq<uint8>): (r: Result<Record, DecodeError>)
    ensures r.Ok? ==> |data| >= 46 && data[44] as int * 0x100 + data[45] >= 48
    ensures r.Ok? ==>
      var dataStart := data[44] as int * 0x100 + data[45];
      && ParseHeader(Slice(data, 0, dataStart)) == Ok(r.value.header)
      && UnpackData(r.value.header, Slice(data, dataStart, r.value.header.recordLength)) == Ok(r.value.data)
  {
    var dataStart :- Read(U16(data, 44));
    if dataStart < 48 then Err(InvalidDataStart)
    else
      var hdr :- ParseHeader(Slice(data, 0, dataStart));
      var samples :- UnpackData(hdr, Slice(data, dataStart, hdr.recordLength));
      Ok(Record(hdr, samples))
  }

  method NewRecord(data: seq<uint8>) returns (r: Result<Record, DecodeError>)
    ensures r == Decode(data)
  {
    var dataStart :- Read(U16(data, 44));
    if dataStart < 48 {
      return Err(InvalidDataStart);
    }
    var hdr :- NewHeader(Slice(data, 0, dataStart));
    var samples :- UnpackDataMethod(hdr, Slice(data, dataStart, hdr.recordLength));
    r := Ok(Record(hdr, samples));
  }

  /** A data start below 48 bytes is refused before the header is read. */
  lemma DataStartChecked(data: seq<uint8>)
    requires |data| >= 46 && data[44] as int * 0x100 + data[45] < 48
    ensures Decode(data) == Err(InvalidDataStart)
  {
  }

  /** Encodings 1, 3, 4, 5, 10 and 11 select int16, int32, float32, float64, Steim1 and
      Steim2; any other is refused. */
  lemma EncodingDispatch(hdr: Header, data: seq<uint8>)
    ensures var r := UnpackData(hdr, data); var e := hdr.encoding;
      && (e !in {1, 3, 4, 5, 10, 11} ==> r == Err(UnknownEncoding))
      && (e == 1 ==> r == Wrap(Int16Samples(data, hdr.nSamples)))
      && (e == 3 ==> r == Wrap(Int32Samples(data, hdr.nSamples)))
      && (e == 4 ==> r == WrapFloats(FloatSamples(data, hdr.nSamples, 4), 4))
      && (e == 5 ==> r == WrapFloats(FloatSamples(data, hdr.nSamples, 8), 8))
      && (e == 10 ==> r == Wrap(Steim.UnpackSteim(Steim.Steim1, data, hdr.nFrames, hdr.nSamples)))
      && (e == 11 ==> r == Wrap(Steim.UnpackSteim(Steim.Steim2, data, hdr.nFrames, hdr.nSamples)))
  {
  }

  /** `Id`: network, station, location and channel joined with ".". */
  function Id(hdr: Header): (r: string)
    ensures r == hdr.network + "." + hdr.station + "." + hdr.location + "." + hdr.channel
  {
    var parts := [hdr.network, hdr.station, hdr.location, hdr.channel];
    assert parts[1..][1..][1..] == [hdr.channel];
    assert Join(parts[1..][1..], ".") == hdr.location + "." + hdr.channel;
    assert Join(parts[1..], ".") == hdr.station + "." + hdr.location + "." + hdr.channel;
    Join([hdr.network, hdr.station, hdr.location, hdr.channel], ".")
  }

  /** The identifier names its four codes: split at "." it gives them back whenever none
      contains a ".". */
  lemma IdSplits(hdr: Header)
    requires '.' !in hdr.network && '.' !in hdr.station && '.' !in hdr.location && '.' !in hdr.channel
    ensures Split(Id(hdr), '.') == [hdr.network, hdr.station, hdr.location, hdr.channel]
  {
    SplitJoin([hdr.network, hdr.station, hdr.location, hdr.channel], '.');
  }

  lemma IdSplitsWhenClean(hdr: Header)
    ensures '.' !in hdr.network && '.' !in hdr.station && '.' !in hdr.location && '.' !in hdr.channel ==>
              Split(Id(hdr), '.') == [hdr.network, hdr.station, hdr.location, hdr.channel]
  {
    if '.' !in hdr.network && '.' !in hdr.station && '.' !in hdr.location && '.' !in hdr.channel {
      IdSplits(hdr);
    }
  }

  /** What `Payload` reports; `end` (a float) is not part of this model. */
  datatype Payload = Payload(
    start: BTime,
    startCorrection: int,
    data: Samples,
    network: string,
    station: string,
    location: string,
    channel: string,
    sampleRate: SampleRate,
    id: string)

  /** `Payload`: the record's samples and header fields, with `Id` as its identifier. */
  function PayloadOf(rec: Record): (r: Payload)
    ensures r.data == rec.data && r.start == rec.header.start && r.sampleRate == rec.header.sampleRate
    ensures '.' !in r.network && '.' !in r.station && '.' !in r.location && '.' !in r.channel ==>
              Split(r.id, '.') == [r.network, r.station, r.location, r.channel]
  {
    IdSplitsWhenClean(rec.header);
    Payload(
      rec.header.start, rec.header.startCorrection, rec.data,
      rec.header.network, rec.header.station, rec.header.location, rec.header.channel,
      rec.header.sampleRate, Id(rec.header))
  }

  /** The id of a parsed header is built from the trimmed codes in bytes 18-20, 8-13,
      13-15 and 15-18 of the header. */
  lemma IdOfParsed(h: seq<uint8>)
    requires ParseHeader(h).Ok?
    ensures Id(ParseHeader(h).value)
         == Join([Trim(Ascii(h, 18, 20)), Trim(Ascii(h, 8, 13)), Trim(Ascii(h, 13, 15)), Trim(Ascii(h, 15, 18))], ".")
  {
    StreamIdShape(h);
  }

  /** The payload of a decoded record carries the identifier built from the trimmed codes
      of its header bytes, and the samples unpacked from the bytes after the data start. */
  lemma PayloadOfDecoded(data: seq<uint8>)
    requires Decode(data).Ok?
    ensures var dataStart := data[44] as int * 0x100 + data[45];
            var h := Slice(data, 0, dataStart);
            var rec := Decode(data).value;
            && PayloadOf(rec).id
               == Join([Trim(Ascii(h, 18, 20)), Trim(Ascii(h, 8, 13)), Trim(Ascii(h, 13, 15)), Trim(Ascii(h, 15, 18))], ".")
            && PayloadOf(rec).data == UnpackData(rec.header, Slice(data, dataStart, rec.header.recordLength)).value
  {
    var dataStart := data[44] as int * 0x100 + data[45];
    IdOfParsed(Slice(data, 0, dataStart));
  }
}
